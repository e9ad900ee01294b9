/** What every operation of the event loop keeps true of its state. */
module ServerInvariants {
  import opened Basics
  import opened Tokens
  import opened Server

  /** A lobby's member set and its players' lobby ids are two views of one relation; masters are members. */
  ghost predicate Linked(s: State) {
    && NULL !in s.players
    && (forall p :: p in s.players ==> s.players[p].lid in s.lobbies && p in s.lobbies[s.players[p].lid].players)
    && (forall l, p :: l in s.lobbies && p in s.lobbies[l].players ==> p in s.players && s.players[p].lid == l)
    && (forall l :: l in s.lobbies ==> s.lobbies[l].master in s.lobbies[l].players)
  }

  /** The index by game id lists exactly the lobbies there are, and no game without lobbies. */
  ghost predicate IndexExact(s: State) {
    && (forall g :: g in s.gidLobbies ==> s.gidLobbies[g] != {})
    && (forall g, id :: g in s.gidLobbies && id in s.gidLobbies[g] ==> LobbyId(g, id) in s.lobbies)
    && (forall l :: l in s.lobbies ==> l.gid in s.gidLobbies && l.lid in s.gidLobbies[l.gid])
  }

  ghost predicate LobbySized(l: Lobby) {
    ValidCapacity(l.capacity) && 1 <= |l.players| < MAX_PLAYERS && |l.metadata| <= MAX_FIELDS
  }

  ghost predicate Sized(s: State) {
    && (forall l :: l in s.lobbies ==> LobbySized(s.lobbies[l]))
    && (forall p :: p in s.players ==> |s.players[p].metadata| <= MAX_FIELDS)
  }

  /** A lobby is on the idle clock exactly while it has fewer than two players. */
  ghost predicate IdleOk(s: State) {
    forall l :: l in s.lobbies ==> (s.lobbies[l].idleSince.Some? <==> |s.lobbies[l].players| < CHUD_THRESHOLD)
  }

  ghost predicate HostingCapped(s: State) {
    forall ip :: |LobbiesFrom(s, ip)| <= LOBBIES_PER_IP
  }

  ghost predicate LobbiesOk(s: State) {
    Linked(s) && IndexExact(s) && Sized(s) && IdleOk(s) && HostingCapped(s)
  }

  ghost predicate PeersOk(peers: map<Ip, Peer>) {
    && |peers| <= GLOBAL_PEERS_CAP
    && TotalSessions(peers) <= GLOBAL_SESSIONS_CAP
    && (forall ip :: ip in peers && peers[ip].sessions.Active? ==> 1 <= peers[ip].sessions.count <= SESSIONS_PER_IP_CAP)
  }

  ghost predicate Valid(s: State) {
    LobbiesOk(s) && PeersOk(s.peers)
  }

  // The session total.

  lemma {:induction false} TotalWithout(peers: map<Ip, Peer>, ip: Ip)
    requires ip in peers
    ensures TotalSessions(peers) == peers[ip].Count() + TotalSessions(peers - {ip})
    decreases |peers|
  {
    var other :| other in peers && TotalSessions(peers) == peers[other].Count() + TotalSessions(peers - {other});
    if other != ip {
      TotalWithout(peers - {other}, ip);
      TotalWithout(peers - {ip}, other);
      assert peers - {other} - {ip} == peers - {ip} - {other};
    }
  }

  lemma TotalUpdated(peers: map<Ip, Peer>, ip: Ip, peer: Peer)
    ensures TotalSessions(peers[ip := peer]) + (if ip in peers then peers[ip].Count() else 0)
      == TotalSessions(peers) + peer.Count()
  {
    TotalWithout(peers[ip := peer], ip);
    assert peers[ip := peer] - {ip} == peers - {ip};
    if ip in peers {
      TotalWithout(peers, ip);
    } else {
      assert peers - {ip} == peers;
    }
  }

  lemma KeptWithout(peers: map<Ip, Peer>, ip: Ip, now: real)
    requires ip in peers
    ensures var kept, rest := peers - ExpiredPeers(peers, now), peers - {ip};
      var keptRest := rest - ExpiredPeers(rest, now);
      if Expired(peers[ip], now) then kept == keptRest
      else ip in kept && kept[ip] == peers[ip] && kept - {ip} == keptRest
  {
    var rest := peers - {ip};
    assert ExpiredPeers(rest, now) == ExpiredPeers(peers, now) - {ip};
  }

  lemma {:induction false} TotalPruned(peers: map<Ip, Peer>, now: real)
    ensures TotalSessions(peers - ExpiredPeers(peers, now)) == TotalSessions(peers)
    decreases |peers|
  {
    if peers == map[] {
      assert peers - ExpiredPeers(peers, now) == map[];
    } else {
      var ip :| ip in peers;
      TotalWithout(peers, ip);
      TotalPruned(peers - {ip}, now);
      KeptWithout(peers, ip, now);
      if !Expired(peers[ip], now) {
        TotalWithout(peers - ExpiredPeers(peers, now), ip);
      }
    }
  }

  /** Operations that touch no peer. */
  predicate LeavesPeers(op: Op) {
    !op.IntroduceSession? && !op.CloseSession? && !op.Prune? && !op.ListLobbies? && !op.HostLobby? && !op.JoinLobby?
  }

  lemma PeersLeft(s: State, op: Op, env: Env)
    requires LeavesPeers(op) && EnvOk(s, op, env)
    ensures Step(s, op, env).state.peers == s.peers
  {
  }

  lemma PeersCharged(s: State, op: Op, env: Env)
    requires EnvOk(s, op, env) && (op.ListLobbies? || op.HostLobby? || op.JoinLobby?)
    ensures Step(s, op, env).state.peers == ChargePeer(s, op.ip, env.now).peers
  {
  }

  lemma IntroduceKeeps(s: State, ip: Ip, now: real)
    requires PeersOk(s.peers)
    ensures PeersOk(Introduce(s, ip, now).state.peers)
  {
    if Grants(s, ip) {
      var peers := Introduce(s, ip, now).state.peers;
      TotalUpdated(s.peers, ip, peers[ip]);
      assert peers.Keys == s.peers.Keys + {ip};
    }
  }

  lemma CloseKeeps(s: State, ip: Ip, now: real)
    requires PeersOk(s.peers)
    ensures PeersOk(Close(s, ip, now).peers)
  {
    if ip in s.peers && s.peers[ip].sessions.Active? {
      var peers := Close(s, ip, now).peers;
      TotalUpdated(s.peers, ip, peers[ip]);
      assert peers.Keys == s.peers.Keys;
    }
  }

  lemma PruneKeeps(s: State, now: real)
    requires PeersOk(s.peers)
    ensures PeersOk(PruneOutcome(s, now).state.peers)
  {
    TotalPruned(s.peers, now);
    SubsetSize(PruneOutcome(s, now).state.peers.Keys, s.peers.Keys);
  }

  lemma PeersKept(s: State, op: Op, env: Env)
    requires PeersOk(s.peers) && EnvOk(s, op, env)
    ensures PeersOk(Step(s, op, env).state.peers)
  {
    if LeavesPeers(op) {
      PeersLeft(s, op, env);
    } else {
      if op.ListLobbies? || op.HostLobby? || op.JoinLobby? {
        PeersCharged(s, op, env);
      }
      match op
      case IntroduceSession(ip) => IntroduceKeeps(s, ip, env.now);
      case CloseSession(ip) => CloseKeeps(s, ip, env.now);
      case Prune => PruneKeeps(s, env.now);
      case ListLobbies(ip, _, _) => ChargeKeeps(s, ip, env.now);
      case HostLobby(ip, _, _, _, _, _) => ChargeKeeps(s, ip, env.now);
      case JoinLobby(ip, _, _) => ChargeKeeps(s, ip, env.now);
    }
  }

  lemma ChargeKeeps(s: State, ip: Ip, now: real)
    requires PeersOk(s.peers)
    ensures PeersOk(ChargePeer(s, ip, now).peers)
  {
    if ip in s.peers {
      TotalUpdated(s.peers, ip, ChargePeer(s, ip, now).peers[ip]);
    }
  }

  // Changes that leave membership alone.

  /** A lobby changed in what is not membership, hosting or idleness. */
  ghost predicate SameRoster(before: Lobby, after: Lobby) {
    && after.players == before.players && after.initiator == before.initiator && after.idleSince == before.idleSince
    && after.master in after.players
  }

  lemma SameHosting(s: State, t: State)
    requires HostingCapped(s) && t.lobbies.Keys == s.lobbies.Keys
    requires forall l :: l in s.lobbies ==> t.lobbies[l].initiator == s.lobbies[l].initiator
    ensures HostingCapped(t)
  {
    forall ip ensures |LobbiesFrom(t, ip)| <= LOBBIES_PER_IP {
      assert LobbiesFrom(t, ip) == LobbiesFrom(s, ip);
    }
  }

  lemma SameIndex(s: State, t: State)
    requires IndexExact(s) && t.lobbies.Keys == s.lobbies.Keys && t.gidLobbies == s.gidLobbies
    ensures IndexExact(t)
  {
  }

  lemma PutLobbyKeepsLinked(s: State, lid: LobbyId, lobby: Lobby)
    requires Linked(s) && lid in s.lobbies && lobby.players == s.lobbies[lid].players && lobby.master in lobby.players
    ensures Linked(PutLobby(s, lid, lobby))
  {
  }

  lemma PutLobbyKeeps(s: State, lid: LobbyId, lobby: Lobby)
    requires LobbiesOk(s) && lid in s.lobbies && SameRoster(s.lobbies[lid], lobby) && LobbySized(lobby)
    ensures LobbiesOk(PutLobby(s, lid, lobby))
  {
    var t := PutLobby(s, lid, lobby);
    PutLobbyKeepsLinked(s, lid, lobby);
    SameIndex(s, t);
    SameHosting(s, t);
  }

  lemma PutPlayerKeepsLinked(s: State, pid: BasicId, player: Player)
    requires Linked(s) && pid in s.players && player.lid == s.players[pid].lid
    ensures Linked(PutPlayer(s, pid, player))
  {
  }

  lemma PutPlayerKeeps(s: State, pid: BasicId, player: Player)
    requires LobbiesOk(s) && pid in s.players && player.lid == s.players[pid].lid && |player.metadata| <= MAX_FIELDS
    ensures LobbiesOk(PutPlayer(s, pid, player))
  {
    var t := PutPlayer(s, pid, player);
    PutPlayerKeepsLinked(s, pid, player);
    SameIndex(s, t);
    SameHosting(s, t);
  }

  lemma OtherPeersKeep(s: State, t: State)
    requires LobbiesOk(s) && t.lobbies == s.lobbies && t.players == s.players && t.gidLobbies == s.gidLobbies
    ensures LobbiesOk(t)
  {
    SameHosting(s, t);
  }

  lemma AddedField(m: Metadata, key: Text, value: Text)
    requires CanAdd(m, key) && |m| <= MAX_FIELDS
    ensures |m[key := value]| <= MAX_FIELDS
  {
    if key in m {
      assert m[key := value].Keys == m.Keys;
    } else {
      assert m[key := value].Keys == m.Keys + {key};
    }
  }

  lemma ErasedField(m: Metadata, key: Text)
    requires |m| <= MAX_FIELDS
    ensures |m - {key}| <= MAX_FIELDS
  {
    SubsetSize((m - {key}).Keys, m.Keys);
  }

  /** One lobby put in or replaced, its players' metadata all within bounds. */
  lemma OneLobbySized(s: State, t: State, lid: LobbyId)
    requires Sized(s) && IdleOk(s) && lid in t.lobbies && t.lobbies == s.lobbies[lid := t.lobbies[lid]]
    requires LobbySized(t.lobbies[lid])
    requires t.lobbies[lid].idleSince.Some? <==> |t.lobbies[lid].players| < CHUD_THRESHOLD
    requires forall p :: p in t.players ==> |t.players[p].metadata| <= MAX_FIELDS
    ensures Sized(t) && IdleOk(t)
  {
  }

  // Joining, hosting, leaving.

  lemma EnteredSized(lobby: Lobby, pid: BasicId)
    requires LobbySized(lobby) && pid !in lobby.players && !lobby.IsFull()
    ensures LobbySized(Entered(lobby, pid)) && Entered(lobby, pid).idleSince.None?
    ensures |Entered(lobby, pid).players| == |lobby.players| + 1 >= CHUD_THRESHOLD
  {
  }

  lemma EnteringKeeps(s: State, t: State, lid: LobbyId, pid: BasicId)
    requires LobbiesOk(s) && lid in s.lobbies && pid != NULL && pid !in s.players && !s.lobbies[lid].IsFull()
    requires t.lobbies == s.lobbies[lid := Entered(s.lobbies[lid], pid)] && t.gidLobbies == s.gidLobbies
    requires pid in t.players && t.players == s.players[pid := t.players[pid]]
    requires t.players[pid].lid == lid && |t.players[pid].metadata| <= MAX_FIELDS
    ensures LobbiesOk(t)
  {
    EnteringKeepsLinked(s, t, lid, pid);
    EnteringKeepsSizes(s, t, lid, pid);
    EnteringKeepsHosting(s, t, lid, pid);
  }

  lemma EnteringKeepsSizes(s: State, t: State, lid: LobbyId, pid: BasicId)
    requires Sized(s) && IdleOk(s) && lid in s.lobbies && pid !in s.lobbies[lid].players && !s.lobbies[lid].IsFull()
    requires t.lobbies == s.lobbies[lid := Entered(s.lobbies[lid], pid)]
    requires pid in t.players && t.players == s.players[pid := t.players[pid]]
    requires |t.players[pid].metadata| <= MAX_FIELDS
    ensures Sized(t) && IdleOk(t)
  {
    EnteredSized(s.lobbies[lid], pid);
    OneLobbySized(s, t, lid);
  }

  lemma EnteringKeepsHosting(s: State, t: State, lid: LobbyId, pid: BasicId)
    requires IndexExact(s) && HostingCapped(s) && lid in s.lobbies
    requires t.lobbies == s.lobbies[lid := Entered(s.lobbies[lid], pid)] && t.gidLobbies == s.gidLobbies
    ensures IndexExact(t) && HostingCapped(t)
  {
    SameIndex(s, t);
    SameHosting(s, t);
  }

  lemma EnteringKeepsLinked(s: State, t: State, lid: LobbyId, pid: BasicId)
    requires Linked(s) && lid in s.lobbies && pid != NULL && pid !in s.players
    requires t.lobbies == s.lobbies[lid := Entered(s.lobbies[lid], pid)]
    requires pid in t.players && t.players == s.players[pid := t.players[pid]] && t.players[pid].lid == lid
    ensures Linked(t) && pid !in s.lobbies[lid].players
  {
  }

  lemma InsertKeeps(s: State, lid: LobbyId, pid: BasicId, metadata: Metadata, env: Env)
    requires LobbiesOk(s) && OrdersOk(s, lid, env)
    requires pid != NULL && pid !in s.players && !s.lobbies[lid].IsFull() && ValidMetadata(metadata)
    ensures LobbiesOk(Insert(s, lid, pid, metadata, env).state)
  {
    EnteringKeeps(s, Insert(s, lid, pid, metadata, env).state, lid, pid);
  }

  /** The state right after hosting, written out. */
  lemma HostedState(s: State, op: Op, env: Env)
    requires op.HostLobby? && EnvOk(s, op, env)
    ensures OrdersOk(Founded(s, op, env), LobbyId(op.gid, env.lid), env)
    ensures var lid := LobbyId(op.gid, env.lid);
      var lobby := NewLobby(op, env.pid, env.now).(players := {env.pid});
      var player := Player(lid, op.playerMetadata, 0, FreshMetadata("player_metadata", env.now));
      Insert(Founded(s, op, env), lid, env.pid, op.playerMetadata, env).state
      == s.(lobbies := s.lobbies[lid := lobby], gidLobbies := Indexed(s.gidLobbies, lid),
            players := s.players[env.pid := player])
  {
    var lid := LobbyId(op.gid, env.lid);
    var f := Founded(s, op, env);
    assert f.lobbies[lid].players == {};
    assert {} + {env.pid} == {env.pid};
    assert |{env.pid}| == 1;
    var t := Insert(f, lid, env.pid, op.playerMetadata, env).state;
    assert t.lobbies == s.lobbies[lid := Entered(f.lobbies[lid], env.pid)];
  }

  /** A hosting that is let through, from start to end. */
  lemma HostedAs(s: State, op: Op, env: Env)
    requires op.HostLobby? && EnvOk(s, op, env) && HostDenial(s, op, env.now).None?
    ensures var s1, lid := ChargePeer(s, op.ip, env.now), LobbyId(op.gid, env.lid);
      Host(s, op, env).state == State(
        Indexed(s.gidLobbies, lid),
        s.lobbies[lid := NewLobby(op, env.pid, env.now).(players := {env.pid})],
        s.players[env.pid := Player(lid, op.playerMetadata, 0, FreshMetadata("player_metadata", env.now))],
        s1.peers)
  {
    HostedState(ChargePeer(s, op.ip, env.now), op, env);
  }

  lemma HostedTells(s: State, op: Op, env: Env)
    requires op.HostLobby? && EnvOk(s, op, env) && HostDenial(s, op, env.now).None?
    ensures Host(s, op, env).out.Keys == {env.pid}
  {
    HostedState(ChargePeer(s, op.ip, env.now), op, env);
    assert Founded(ChargePeer(s, op.ip, env.now), op, env).lobbies[LobbyId(op.gid, env.lid)].players == {};
  }

  lemma IndexedExact(s: State, t: State, lid: LobbyId)
    requires IndexExact(s) && t.lobbies.Keys == s.lobbies.Keys + {lid} && t.gidLobbies == Indexed(s.gidLobbies, lid)
    ensures IndexExact(t)
  {
  }

  lemma FoundingKeeps(s: State, t: State, lid: LobbyId, pid: BasicId)
    requires LobbiesOk(s) && lid !in s.lobbies && pid != NULL && pid !in s.players
    requires lid in t.lobbies && t.lobbies == s.lobbies[lid := t.lobbies[lid]]
    requires t.gidLobbies == Indexed(s.gidLobbies, lid)
    requires pid in t.players && t.players == s.players[pid := t.players[pid]]
    requires t.players[pid].lid == lid && |t.players[pid].metadata| <= MAX_FIELDS
    requires t.lobbies[lid].players == {pid} && t.lobbies[lid].master == pid && t.lobbies[lid].idleSince.Some?
    requires ValidCapacity(t.lobbies[lid].capacity) && |t.lobbies[lid].metadata| <= MAX_FIELDS
    requires |LobbiesFrom(s, t.lobbies[lid].initiator)| < LOBBIES_PER_IP
    ensures LobbiesOk(t)
  {
    assert |{pid}| == 1;
    HostKeepsLinked(s, lid, pid, t.lobbies[lid], t.players[pid], t);
    OneLobbySized(s, t, lid);
    IndexedExact(s, t, lid);
    HostingOneMore(s, t, lid);
  }

  lemma HostingOneMore(s: State, t: State, lid: LobbyId)
    requires HostingCapped(s) && lid !in s.lobbies && lid in t.lobbies
    requires t.lobbies == s.lobbies[lid := t.lobbies[lid]]
    requires |LobbiesFrom(s, t.lobbies[lid].initiator)| < LOBBIES_PER_IP
    ensures HostingCapped(t)
  {
    forall ip ensures |LobbiesFrom(t, ip)| <= LOBBIES_PER_IP {
      if ip == t.lobbies[lid].initiator {
        assert LobbiesFrom(t, ip) == LobbiesFrom(s, ip) + {lid};
      } else {
        assert LobbiesFrom(t, ip) == LobbiesFrom(s, ip);
      }
    }
  }

  lemma HostKeepsLinked(s: State, lid: LobbyId, pid: BasicId, lobby: Lobby, player: Player, t: State)
    requires Linked(s) && lid !in s.lobbies && pid != NULL && pid !in s.players
    requires lobby.players == {pid} && lobby.master == pid && player.lid == lid
    requires t.lobbies == s.lobbies[lid := lobby] && t.players == s.players[pid := player]
    ensures Linked(t)
  {
  }

  lemma UnindexedExact(s: State, t: State, lid: LobbyId)
    requires IndexExact(s) && lid in s.lobbies
    requires t.lobbies == s.lobbies - {lid} && t.gidLobbies == Unindexed(s.gidLobbies, lid)
    ensures IndexExact(t)
  {
    var rest := s.gidLobbies[lid.gid] - {lid.lid};
    forall l | l in t.lobbies ensures l.gid in t.gidLobbies && l.lid in t.gidLobbies[l.gid] {
      assert l in s.lobbies && l != lid;
      if l.gid == lid.gid {
        assert l.lid != lid.lid;
        assert l.lid in rest;
      }
    }
    forall g, id | g in t.gidLobbies && id in t.gidLobbies[g] ensures LobbyId(g, id) in t.lobbies {
      assert g in s.gidLobbies && id in s.gidLobbies[g];
    }
  }

  /** With masters always members, a lobby loses its master for good exactly when its last member leaves. */
  lemma MasterGoneIffEmpty(s: State, pid: BasicId, heir: BasicId, now: real)
    requires Linked(s) && pid in s.players
    requires LobbyOf(s, pid).players != {pid} ==> heir in LobbyOf(s, pid).players - {pid}
    ensures var lobby := Departed(LobbyOf(s, pid), pid, heir, now);
      && (lobby.master == NULL <==> lobby.players == {})
      && (lobby.players == {} <==> LobbyOf(s, pid).players == {pid})
      && (lobby.master != NULL ==> lobby.master in lobby.players)
  {
    assert pid in LobbyOf(s, pid).players;
  }

  lemma RemovedLast(s: State, pid: BasicId, reason: Kick, heir: BasicId, now: real)
    requires pid in s.players && s.players[pid].lid in s.lobbies
    requires Departed(LobbyOf(s, pid), pid, heir, now).master == NULL
    ensures var o, lid := Remove(s, pid, reason, heir, now), s.players[pid].lid;
      && o.state == State(Unindexed(s.gidLobbies, lid), s.lobbies - {lid}, s.players - {pid}, s.peers)
      && o.out == map[pid := [Disconnected(reason)]]
  {
  }

  lemma RemovedOne(s: State, pid: BasicId, reason: Kick, heir: BasicId, now: real)
    requires pid in s.players && s.players[pid].lid in s.lobbies
    requires Departed(LobbyOf(s, pid), pid, heir, now).master != NULL
    ensures var o, lid, lobby := Remove(s, pid, reason, heir, now), s.players[pid].lid,
      Departed(LobbyOf(s, pid), pid, heir, now);
      && o.state == State(s.gidLobbies, s.lobbies[lid := lobby], s.players - {pid}, s.peers)
      && o.out == Broadcast(lobby.players, [Left(pid, reason), SetMaster(lobby.master)])
        + map[pid := [Disconnected(reason)]]
  {
  }

  lemma FewerHosted(s: State, t: State)
    requires HostingCapped(s) && t.lobbies.Keys <= s.lobbies.Keys
    requires forall l :: l in t.lobbies ==> t.lobbies[l].initiator == s.lobbies[l].initiator
    ensures HostingCapped(t)
  {
    forall ip ensures |LobbiesFrom(t, ip)| <= LOBBIES_PER_IP {
      SubsetSize(LobbiesFrom(t, ip), LobbiesFrom(s, ip));
    }
  }

  lemma RemoveKeeps(s: State, pid: BasicId, reason: Kick, env: Env)
    requires LobbiesOk(s) && EnvOk(s, RemovePlayer(pid, reason), env)
    ensures LobbiesOk(Remove(s, pid, reason, env.heir, env.now).state)
  {
    if pid in s.players {
      MasterGoneIffEmpty(s, pid, env.heir, env.now);
      var t := Remove(s, pid, reason, env.heir, env.now).state;
      if LobbyOf(s, pid).players == {pid} {
        LastLeavingKeeps(s, t, pid);
      } else {
        LeavingKeeps(s, t, pid, env.heir, env.now);
      }
    }
  }

  lemma LastLeavingKeeps(s: State, t: State, pid: BasicId)
    requires LobbiesOk(s) && pid in s.players && LobbyOf(s, pid).players == {pid}
    requires t.players == s.players - {pid} && t.lobbies == s.lobbies - {s.players[pid].lid}
    requires t.gidLobbies == Unindexed(s.gidLobbies, s.players[pid].lid)
    ensures LobbiesOk(t)
  {
    RemoveLastKeepsLinked(s, pid, t);
    UnindexedExact(s, t, s.players[pid].lid);
    FewerHosted(s, t);
  }

  lemma LeavingKeeps(s: State, t: State, pid: BasicId, heir: BasicId, now: real)
    requires LobbiesOk(s) && pid in s.players && heir in LobbyOf(s, pid).players - {pid}
    requires t.players == s.players - {pid} && t.gidLobbies == s.gidLobbies
    requires t.lobbies == s.lobbies[s.players[pid].lid := Departed(LobbyOf(s, pid), pid, heir, now)]
    ensures LobbiesOk(t)
  {
    MasterGoneIffEmpty(s, pid, heir, now);
    RemoveOneKeepsLinked(s, pid, Departed(LobbyOf(s, pid), pid, heir, now), t);
    LeavingKeepsSizes(s, t, pid, heir, now);
    LeavingKeepsHosting(s, t, pid, heir, now);
  }

  lemma LeavingKeepsSizes(s: State, t: State, pid: BasicId, heir: BasicId, now: real)
    requires Sized(s) && IdleOk(s) && pid in s.players && s.players[pid].lid in s.lobbies
    requires pid in LobbyOf(s, pid).players && LobbyOf(s, pid).players != {pid}
    requires t.players == s.players - {pid}
    requires t.lobbies == s.lobbies[s.players[pid].lid := Departed(LobbyOf(s, pid), pid, heir, now)]
    ensures Sized(t) && IdleOk(t)
  {
    DepartedSized(LobbyOf(s, pid), pid, heir, now);
    OneLobbySized(s, t, s.players[pid].lid);
  }

  lemma LeavingKeepsHosting(s: State, t: State, pid: BasicId, heir: BasicId, now: real)
    requires IndexExact(s) && HostingCapped(s) && pid in s.players && s.players[pid].lid in s.lobbies
    requires t.gidLobbies == s.gidLobbies
    requires t.lobbies == s.lobbies[s.players[pid].lid := Departed(LobbyOf(s, pid), pid, heir, now)]
    ensures IndexExact(t) && HostingCapped(t)
  {
    SameIndex(s, t);
    SameHosting(s, t);
  }

  lemma DepartedSized(lobby: Lobby, pid: BasicId, heir: BasicId, now: real)
    requires LobbySized(lobby) && pid in lobby.players && lobby.players != {pid}
    requires lobby.idleSince.Some? <==> |lobby.players| < CHUD_THRESHOLD
    ensures LobbySized(Departed(lobby, pid, heir, now))
    ensures var after := Departed(lobby, pid, heir, now); after.idleSince.Some? <==> |after.players| < CHUD_THRESHOLD
  {
    var other :| other in lobby.players && other != pid;
    assert |lobby.players - {pid} - {other}| == |lobby.players| - 2;
  }

  lemma RemoveLastKeepsLinked(s: State, pid: BasicId, t: State)
    requires Linked(s) && pid in s.players && LobbyOf(s, pid).players == {pid}
    requires t.players == s.players - {pid} && t.lobbies == s.lobbies - {s.players[pid].lid}
    ensures Linked(t)
  {
    forall p | p in t.players ensures s.players[p].lid in t.lobbies {
      assert p in LobbyOf(s, p).players && p != pid;
    }
  }

  lemma RemoveOneKeepsLinked(s: State, pid: BasicId, lobby: Lobby, t: State)
    requires Linked(s) && pid in s.players
    requires lobby.players == LobbyOf(s, pid).players - {pid} && lobby.master in lobby.players
    requires t.players == s.players - {pid} && t.lobbies == s.lobbies[s.players[pid].lid := lobby]
    ensures Linked(t)
  {
  }

  // Every operation.

  lemma AlterKeeps(s: State, initiator: BasicId, changed: Lobby, msg: ServerMessage, now: real)
    requires LobbiesOk(s) && IsMaster(s, initiator)
    requires SameRoster(LobbyOf(s, initiator), changed) && LobbySized(changed)
    ensures LobbiesOk(Alter(s, initiator, changed, msg, now).state)
  {
    var t := Alter(s, initiator, changed, msg, now).state;
    var lid, lobby := s.players[initiator].lid, LobbyOf(s, initiator);
    var budget := Taken(lobby.alterations, now, 1);
    if Allows(lobby.alterations, now, 1) {
      PutLobbyKeeps(s, lid, changed.(alterations := budget));
      assert t == PutLobby(s, lid, changed.(alterations := budget));
    } else {
      PutLobbyKeeps(s, lid, lobby.(alterations := budget));
      assert t == PutLobby(s, lid, lobby.(alterations := budget));
    }
  }

  lemma FieldSetKeeps(s: State, pid: BasicId, key: Text, value: Text, now: real)
    requires LobbiesOk(s)
    ensures LobbiesOk(SetPlayerField(s, pid, key, value, now).state)
  {
    var t := SetPlayerField(s, pid, key, value, now).state;
    if pid in s.players && CanAdd(s.players[pid].metadata, key) {
      var player := s.players[pid];
      AddedField(player.metadata, key, value);
      var charged := player.(metadataBudget := Taken(player.metadataBudget, now, |key| + |value|));
      if Allows(player.metadataBudget, now, |key| + |value|) {
        var changed := charged.(metadata := player.metadata[key := value]);
        PutPlayerKeeps(s, pid, changed);
        assert t == PutPlayer(s, pid, changed);
      } else {
        PutPlayerKeeps(s, pid, charged);
        assert t == PutPlayer(s, pid, charged);
      }
    } else {
      assert t == s;
    }
  }

  lemma FieldErasedKeeps(s: State, pid: BasicId, key: Text)
    requires LobbiesOk(s)
    ensures LobbiesOk(ErasePlayerField(s, pid, key).state)
  {
    var t := ErasePlayerField(s, pid, key).state;
    if pid in s.players && key in s.players[pid].metadata {
      var changed := s.players[pid].(metadata := s.players[pid].metadata - {key});
      ErasedField(s.players[pid].metadata, key);
      PutPlayerKeeps(s, pid, changed);
      assert t == PutPlayer(s, pid, changed);
    } else {
      assert t == s;
    }
  }

  lemma LobbyFieldSetKeeps(s: State, initiator: BasicId, key: Text, value: Text, now: real)
    requires LobbiesOk(s)
    ensures LobbiesOk(SetLobbyField(s, initiator, key, value, now).state)
  {
    var t := SetLobbyField(s, initiator, key, value, now).state;
    if IsMaster(s, initiator) && CanAdd(LobbyOf(s, initiator).metadata, key) {
      var lid, lobby := s.players[initiator].lid, LobbyOf(s, initiator);
      AddedField(lobby.metadata, key, value);
      var charged := lobby.(metadataBudget := Taken(lobby.metadataBudget, now, |key| + |value|));
      if Allows(lobby.metadataBudget, now, |key| + |value|) {
        var changed := charged.(metadata := lobby.metadata[key := value]);
        PutLobbyKeeps(s, lid, changed);
        assert t == PutLobby(s, lid, changed);
      } else {
        PutLobbyKeeps(s, lid, charged);
        assert t == PutLobby(s, lid, charged);
      }
    } else {
      assert t == s;
    }
  }

  lemma LobbyFieldErasedKeeps(s: State, initiator: BasicId, key: Text)
    requires LobbiesOk(s)
    ensures LobbiesOk(EraseLobbyField(s, initiator, key).state)
  {
    var t := EraseLobbyField(s, initiator, key).state;
    if IsMaster(s, initiator) && key in LobbyOf(s, initiator).metadata {
      var lid, lobby := s.players[initiator].lid, LobbyOf(s, initiator);
      ErasedField(lobby.metadata, key);
      PutLobbyKeeps(s, lid, lobby.(metadata := lobby.metadata - {key}));
      assert t == PutLobby(s, lid, lobby.(metadata := lobby.metadata - {key}));
    } else {
      assert t == s;
    }
  }

  lemma HostingKeeps(s: State, op: Op, env: Env, t: State)
    requires LobbiesOk(s) && op.HostLobby? && ValidOp(op) && EnvOk(s, op, env)
    requires t == Host(s, op, env).state
    ensures LobbiesOk(t)
  {
    if HostDenial(s, op, env.now).None? {
      HostedAs(s, op, env);
      FoundingKeeps(s, t, LobbyId(op.gid, env.lid), env.pid);
    } else {
      OtherPeersKeep(s, t);
    }
  }

  lemma JoiningKeeps(s: State, op: Op, env: Env, t: State)
    requires LobbiesOk(s) && op.JoinLobby? && ValidOp(op) && EnvOk(s, op, env)
    requires t == Join(s, op, env).state
    ensures LobbiesOk(t)
  {
    var s1 := ChargePeer(s, op.ip, env.now);
    OtherPeersKeep(s, s1);
    if JoinDenial(s, op, env.now).None? {
      InsertKeeps(s1, op.lid, env.pid, op.playerMetadata, env);
      assert t == Insert(s1, op.lid, env.pid, op.playerMetadata, env).state;
    } else {
      assert t == s1;
    }
  }

  lemma AlterationKeeps(s: State, op: Op, now: real)
    requires LobbiesOk(s) && IsAlteration(op) && ValidOp(op)
    ensures LobbiesOk(Alteration(s, op, now).state)
  {
    if Entitled(s, op) {
      var (changed, msg) := Requested(LobbyOf(s, op.initiator), op);
      AlterKeeps(s, op.initiator, changed, msg, now);
      assert Alteration(s, op, now).state == Alter(s, op.initiator, changed, msg, now).state;
    } else {
      assert Alteration(s, op, now).state == s;
    }
  }

  /** Operations that touch no lobby, player or index. */
  predicate LeavesLobbies(op: Op) {
    || op.AssemblePong? || op.Relay? || op.ListLobbies? || op.KickPlayer?
    || op.IntroduceSession? || op.Prune? || op.CloseSession?
  }

  lemma LobbiesLeft(s: State, op: Op, env: Env)
    requires LeavesLobbies(op) && EnvOk(s, op, env)
    ensures var t := Step(s, op, env).state;
      t.lobbies == s.lobbies && t.players == s.players && t.gidLobbies == s.gidLobbies
  {
  }

  lemma StepKeepsLobbies(s: State, op: Op, env: Env)
    requires LobbiesOk(s) && ValidOp(op) && EnvOk(s, op, env)
    ensures LobbiesOk(Step(s, op, env).state)
  {
    if LeavesLobbies(op) {
      LobbiesLeft(s, op, env);
      OtherPeersKeep(s, Step(s, op, env).state);
    } else {
      match op
      case SetLobbyMetaOp(initiator, key, value) => LobbyFieldSetKeeps(s, initiator, key, value, env.now);
      case EraseLobbyMetaOp(initiator, key) => LobbyFieldErasedKeeps(s, initiator, key);
      case SetPlayerMetaOp(pid, key, value) => FieldSetKeeps(s, pid, key, value, env.now);
      case ErasePlayerMetaOp(pid, key) => FieldErasedKeeps(s, pid, key);
      case HostLobby(_, _, _, _, _, _) => HostingKeeps(s, op, env, Host(s, op, env).state);
      case JoinLobby(_, _, _) => JoiningKeeps(s, op, env, Join(s, op, env).state);
      case RemovePlayer(pid, reason) => RemoveKeeps(s, pid, reason, env);
      case _ => AlterationKeeps(s, op, env.now);
    }
  }

  /** The invariant of the event loop, over every operation with every choice it can make. */
  lemma StepKeepsValid(s: State, op: Op, env: Env)
    requires Valid(s) && ValidOp(op) && EnvOk(s, op, env)
    ensures Valid(Step(s, op, env).state)
  {
    StepKeepsLobbies(s, op, env);
    PeersKept(s, op, env);
  }

  lemma EmptyIsValid()
    ensures Valid(EMPTY)
  {
    forall ip ensures LobbiesFrom(EMPTY, ip) == {} {
    }
  }

  /** No lobby outnumbers its players: each has a master of its own. */
  lemma FewerLobbiesThanPlayers(s: State)
    requires Linked(s)
    ensures |s.lobbies| <= |s.players|
  {
    var masters := map l | l in s.lobbies :: s.lobbies[l].master;
    InjectiveImageSize(s.lobbies.Keys, masters, s.players.Keys);
  }
}
