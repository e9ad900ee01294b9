/** Runs of the event loop alone, over any sequence of operations that anyone could have asked for. */
module ServerRuns {
  import opened Basics
  import opened Server
  import opened ServerInvariants
  import opened Sessions
  import opened Ownership

  datatype Move = Move(op: Op, env: Env)

  /** `states[i]` is the state before `moves[i]`, and the last state comes after the last move. */
  datatype ServerRun = ServerRun(states: seq<State>, moves: seq<Move>)

  predicate Admission(op: Op) {
    op.HostLobby? || op.JoinLobby?
  }

  ghost predicate MoveAt(r: ServerRun, i: nat)
    requires |r.states| == |r.moves| + 1 && i < |r.moves|
  {
    && ValidOp(r.moves[i].op) && EnvOk(r.states[i], r.moves[i].op, r.moves[i].env)
    && r.states[i + 1] == Step(r.states[i], r.moves[i].op, r.moves[i].env).state
  }

  predicate InOrder(m: Move, later: Move) {
    m.env.now <= later.env.now
  }

  /** From the empty state; the clock does not go back, and no player id is drawn that has been in use before. */
  ghost predicate IsServerRun(r: ServerRun) {
    && |r.states| == |r.moves| + 1 && r.states[0] == EMPTY
    && (forall i: nat :: i < |r.moves| ==> MoveAt(r, i))
    && (forall i, j :: 0 <= i < j < |r.moves| ==> InOrder(r.moves[i], r.moves[j]))
    && (forall i, j :: 0 <= i <= j < |r.moves| && Admission(r.moves[j].op) ==>
         r.moves[j].env.pid !in r.states[i].players)
  }

  ghost function OutcomeAt(r: ServerRun, i: nat): Outcome
    requires |r.states| == |r.moves| + 1 && i < |r.moves| && MoveAt(r, i)
  {
    Step(r.states[i], r.moves[i].op, r.moves[i].env)
  }

  lemma {:induction false} ServerRunsAreValid(r: ServerRun, i: nat, s: State)
    requires IsServerRun(r) && i < |r.states| && s == r.states[i]
    ensures Valid(s)
  {
    if i == 0 {
      EmptyIsValid();
    } else {
      ServerRunsAreValid(r, i - 1, r.states[i - 1]);
      assert MoveAt(r, i - 1);
      StepKeepsValid(r.states[i - 1], r.moves[i - 1].op, r.moves[i - 1].env);
    }
  }

  // Departures.

  /** A player who is not there can neither change anything nor have anything said. */
  lemma AbsentPlayersAreInert(s: State, op: Op, env: Env, p: BasicId)
    requires p !in s.players && EnvOk(s, op, env)
    ensures Unanswered(op, p) ==> Step(s, op, env) == Nothing(s)
    ensures op == AssemblePong(p) ==> Step(s, op, env) == Outcome(s, map[], Ponged({}))
  {
  }

  /** What a removal tells those who stay: the departure, and who the master is. */
  lemma RemovalTellsEveryoneOnce(s: State, p: BasicId, reason: Kick, env: Env)
    requires Linked(s) && p in s.players && EnvOk(s, RemovePlayer(p, reason), env)
    ensures Farewells(s, p, reason, Step(s, RemovePlayer(p, reason), env))
  {
    RemoveTells(s, p, reason, env.heir, env.now);
  }

  ghost predicate Farewells(s: State, p: BasicId, reason: Kick, o: Outcome)
    requires p in s.players && s.players[p].lid in s.lobbies
  {
    var stay := LobbyOf(s, p).players - {p};
    && p !in o.state.players
    && SentTo(o.out, p) == [Disconnected(reason)]
    && o.out.Keys == stay + {p}
    && (forall q :: q in stay ==> FarewellTo(s, p, reason, o, q))
  }

  predicate FarewellTo(s: State, p: BasicId, reason: Kick, o: Outcome, q: BasicId)
    requires p in s.players && s.players[p].lid in s.lobbies
  {
    && q in o.state.players && o.state.players[q].lid == s.players[p].lid && s.players[p].lid in o.state.lobbies
    && LobbyOf(o.state, q).master in LobbyOf(s, p).players - {p}
    && SentTo(o.out, q) == [Left(p, reason), SetMaster(LobbyOf(o.state, q).master)]
  }

  lemma RemoveTells(s: State, p: BasicId, reason: Kick, heir: BasicId, now: real)
    requires Linked(s) && p in s.players
    requires LobbyOf(s, p).players != {p} ==> heir in LobbyOf(s, p).players - {p}
    ensures Farewells(s, p, reason, Remove(s, p, reason, heir, now))
  {
    MasterGoneIffEmpty(s, p, heir, now);
    if LobbyOf(s, p).players == {p} {
      RemovedLast(s, p, reason, heir, now);
    } else {
      RemovedOne(s, p, reason, heir, now);
      StayingTold(s, p, reason, Departed(LobbyOf(s, p), p, heir, now), Remove(s, p, reason, heir, now));
    }
  }

  lemma StayingTold(s: State, p: BasicId, reason: Kick, lobby: Lobby, o: Outcome)
    requires Linked(s) && p in s.players
    requires lobby.players == LobbyOf(s, p).players - {p} && lobby.master in lobby.players
    requires o.state == State(s.gidLobbies, s.lobbies[s.players[p].lid := lobby], s.players - {p}, s.peers)
    requires o.out == Broadcast(lobby.players, [Left(p, reason), SetMaster(lobby.master)])
      + map[p := [Disconnected(reason)]]
    ensures Farewells(s, p, reason, o)
  {
    forall q | q in lobby.players ensures FarewellTo(s, p, reason, o, q) {
      assert q in s.players && s.players[q].lid == s.players[p].lid;
    }
  }

  predicate TellsOfLeaving(msgs: seq<ServerMessage>, p: BasicId) {
    exists i :: 0 <= i < |msgs| && msgs[i].Left? && msgs[i].pid == p
  }

  /** Only a removal tells of a departure, and only of its own player's. */
  lemma OnlyRemovalsTellOfLeaving(s: State, op: Op, env: Env, p: BasicId, q: BasicId, o: Outcome)
    requires EnvOk(s, op, env) && o == Step(s, op, env) && TellsOfLeaving(SentTo(o.out, q), p)
    ensures op.RemovePlayer? && op.pid == p && p in s.players
  {
    if op.HostLobby? || op.JoinLobby? {
      AdmissionsTellOfNoLeaving(s, op, env, p, q);
    }
  }

  predicate NoLeaving(msgs: seq<ServerMessage>) {
    forall i :: 0 <= i < |msgs| ==> !msgs[i].Left?
  }

  lemma {:induction false} MetaTellsOfNoLeaving(m: Metadata, keys: seq<Text>)
    requires forall k :: k in keys ==> k in m
    ensures NoLeaving(MetaMessages(m, keys))
  {
    if keys != [] {
      MetaTellsOfNoLeaving(m, keys[..|keys| - 1]);
    }
  }

  lemma {:induction false} JoinedTellsOfNoLeaving(players: map<BasicId, Player>, members: seq<BasicId>)
    requires forall p :: p in members ==> p in players
    ensures NoLeaving(JoinedMessages(players, members))
  {
    if members != [] {
      JoinedTellsOfNoLeaving(players, members[..|members| - 1]);
    }
  }

  lemma InsertTellsOfNoLeaving(s: State, lid: LobbyId, pid: BasicId, metadata: Metadata, env: Env, q: BasicId)
    requires OrdersOk(s, lid, env)
    ensures NoLeaving(SentTo(Insert(s, lid, pid, metadata, env).out, q))
  {
    MetaTellsOfNoLeaving(s.lobbies[lid].metadata, env.keys);
    JoinedTellsOfNoLeaving(s.players, env.members);
  }

  lemma AdmissionsTellOfNoLeaving(s: State, op: Op, env: Env, p: BasicId, q: BasicId)
    requires EnvOk(s, op, env) && Admission(op)
    ensures NoLeaving(SentTo(Step(s, op, env).out, q))
  {
    var s1 := ChargePeer(s, op.ip, env.now);
    if op.HostLobby? {
      if HostDenial(s, op, env.now).None? {
        HostedState(s1, op, env);
        InsertTellsOfNoLeaving(Founded(s1, op, env), LobbyId(op.gid, env.lid), env.pid, op.playerMetadata, env, q);
      }
    } else if JoinDenial(s, op, env.now).None? {
      InsertTellsOfNoLeaving(s1, op.lid, env.pid, op.playerMetadata, env, q);
    }
  }

  /** Whoever has left stays away: ids are not used again. */
  lemma {:induction false} LeftForGood(r: ServerRun, i: nat, j: nat, p: BasicId)
    requires IsServerRun(r) && i < j < |r.states|
    requires p in r.states[i].players && p !in r.states[i + 1].players
    ensures p !in r.states[j].players
    decreases j
  {
    if j > i + 1 {
      LeftForGood(r, i, j - 1, p);
      assert Admission(r.moves[j - 1].op) ==> r.moves[j - 1].env.pid !in r.states[i].players;
      MoveAdmitsNoOther(r, j - 1, p);
    }
  }

  lemma MoveAdmitsNoOther(r: ServerRun, i: nat, p: BasicId)
    requires IsServerRun(r) && i < |r.moves| && p !in r.states[i].players
    requires Admission(r.moves[i].op) ==> r.moves[i].env.pid != p
    ensures p !in r.states[i + 1].players
  {
    assert MoveAt(r, i);
    AdmitsNoOther(r.states[i], r.moves[i].op, r.moves[i].env, p);
  }

  lemma AdmitsNoOther(s: State, op: Op, env: Env, p: BasicId)
    requires EnvOk(s, op, env) && p !in s.players && (Admission(op) ==> env.pid != p)
    ensures p !in Step(s, op, env).state.players
  {
    PlayersAfter(s, op, env);
    AnswersOthers(s, op, env);
  }

  /**
   * Departures happen once. However many removals of a player are asked for, at most one of them finds it there, and
   * only that one tells anybody. From then on nothing the player asks for changes or says anything.
   */
  lemma DeparturesHappenOnce(r: ServerRun, i: nat, p: BasicId, reason: Kick)
    requires IsServerRun(r) && i < |r.moves| && r.moves[i].op == RemovePlayer(p, reason) && p in r.states[i].players
    ensures MoveAt(r, i) && r.states[i].players[p].lid in r.states[i].lobbies
    ensures Farewells(r.states[i], p, reason, OutcomeAt(r, i))
    ensures forall j: nat, q :: j < |r.moves| && MoveAt(r, j) && TellsOfLeaving(SentTo(OutcomeAt(r, j).out, q), p) ==>
      j == i
    ensures forall j: nat :: i < j < |r.moves| && MoveAt(r, j) && Unanswered(r.moves[j].op, p) ==>
      OutcomeAt(r, j) == Nothing(r.states[j])
  {
    ServerRunsAreValid(r, i, r.states[i]);
    assert MoveAt(r, i);
    RemovalTellsEveryoneOnce(r.states[i], p, reason, r.moves[i].env);
    forall j: nat, q | j < |r.moves| && MoveAt(r, j) && TellsOfLeaving(SentTo(OutcomeAt(r, j).out, q), p)
      ensures j == i {
      OnlyRemovalsTellOfLeaving(r.states[j], r.moves[j].op, r.moves[j].env, p, q, OutcomeAt(r, j));
      ServerRunsAreValid(r, j, r.states[j]);
      if j > i {
        LeftForGood(r, i, j, p);
      } else if j < i {
        RemovalTellsEveryoneOnce(r.states[j], p, r.moves[j].op.reason, r.moves[j].env);
        LeftForGood(r, j, i, p);
      }
    }
    forall j: nat | i < j < |r.moves| && MoveAt(r, j) && Unanswered(r.moves[j].op, p)
      ensures OutcomeAt(r, j) == Nothing(r.states[j])
    {
      LeftForGood(r, i, j, p);
      AbsentPlayersAreInert(r.states[j], r.moves[j].op, r.moves[j].env, p);
    }
  }

  // Idle lobbies.

  predicate LonelyAt(s: State, l: LobbyId) {
    l in s.lobbies && |s.lobbies[l].players| < 2
  }

  ghost predicate LonelyFrom(r: ServerRun, l: LobbyId, j: nat, i: nat) {
    i < |r.states| && forall k :: j <= k <= i ==> LonelyAt(r.states[k], l)
  }

  /** The idle clock of a lobby starts when it becomes lonely, and is not touched while it stays so. */
  ghost predicate IdleClock(s: State, t: State, l: LobbyId, now: real) {
    l in t.lobbies && t.lobbies[l].idleSince.Some? ==>
      t.lobbies[l].idleSince == if LonelyAt(s, l) then s.lobbies[l].idleSince else Some(now)
  }

  lemma PutLobbyKeepsClock(s: State, t: State, lid: LobbyId, l: LobbyId, now: real)
    requires IdleOk(s) && lid in s.lobbies && lid in t.lobbies && t.lobbies == s.lobbies[lid := t.lobbies[lid]]
    requires t.lobbies[lid].idleSince == s.lobbies[lid].idleSince
    ensures IdleClock(s, t, l, now)
  {
  }

  lemma SameLobbiesKeepClock(s: State, t: State, l: LobbyId, now: real)
    requires IdleOk(s) && forall l :: l in t.lobbies ==> l in s.lobbies && t.lobbies[l] == s.lobbies[l]
    ensures IdleClock(s, t, l, now)
  {
  }

  lemma InsertClock(s: State, lid: LobbyId, pid: BasicId, metadata: Metadata, env: Env, l: LobbyId)
    requires IdleOk(s) && OrdersOk(s, lid, env) && pid !in s.lobbies[lid].players
    ensures IdleClock(s, Insert(s, lid, pid, metadata, env).state, l, env.now)
  {
    var t := Insert(s, lid, pid, metadata, env).state;
    assert t.lobbies == s.lobbies[lid := Entered(s.lobbies[lid], pid)];
    SubsetSize(s.lobbies[lid].players, s.lobbies[lid].players + {pid});
  }

  lemma HostClock(s: State, op: Op, env: Env, l: LobbyId)
    requires IdleOk(s) && op.HostLobby? && EnvOk(s, op, env)
    ensures IdleClock(s, Host(s, op, env).state, l, env.now)
  {
    var s1 := ChargePeer(s, op.ip, env.now);
    if HostDenial(s, op, env.now).None? {
      HostedState(s1, op, env);
      var lid := LobbyId(op.gid, env.lid);
      var t := Host(s, op, env).state;
      assert t.lobbies == s.lobbies[lid := NewLobby(op, env.pid, env.now).(players := {env.pid})];
      assert l != lid && l in t.lobbies ==> l in s.lobbies && t.lobbies[l] == s.lobbies[l];
    } else {
      SameLobbiesKeepClock(s, s1, l, env.now);
    }
  }

  lemma JoinClock(s: State, op: Op, env: Env, l: LobbyId)
    requires Linked(s) && IdleOk(s) && op.JoinLobby? && EnvOk(s, op, env)
    ensures IdleClock(s, Join(s, op, env).state, l, env.now)
  {
    var s1 := ChargePeer(s, op.ip, env.now);
    if JoinDenial(s, op, env.now).None? {
      InsertClock(s1, op.lid, env.pid, op.playerMetadata, env, l);
      assert Join(s, op, env).state == Insert(s1, op.lid, env.pid, op.playerMetadata, env).state;
    } else {
      SameLobbiesKeepClock(s, s1, l, env.now);
    }
  }

  lemma RemoveClock(s: State, p: BasicId, reason: Kick, heir: BasicId, now: real, l: LobbyId)
    requires Linked(s) && IdleOk(s)
    ensures IdleClock(s, Remove(s, p, reason, heir, now).state, l, now)
  {
    if p in s.players {
      var lid, t := s.players[p].lid, Remove(s, p, reason, heir, now).state;
      var lobby := Departed(s.lobbies[lid], p, heir, now);
      SubsetSize(lobby.players, s.lobbies[lid].players);
      if lobby.master == NULL {
        RemovedLast(s, p, reason, heir, now);
        SameLobbiesKeepClock(s, t, l, now);
      } else {
        RemovedOne(s, p, reason, heir, now);
      }
    }
  }

  lemma AlterationClock(s: State, op: Op, now: real, l: LobbyId)
    requires IdleOk(s) && IsAlteration(op)
    ensures IdleClock(s, Alteration(s, op, now).state, l, now)
  {
    if Entitled(s, op) {
      PutLobbyKeepsClock(s, Alteration(s, op, now).state, s.players[op.initiator].lid, l, now);
    }
  }

  lemma LobbyFieldClock(s: State, op: Op, now: real, l: LobbyId)
    requires IdleOk(s) && (op.SetLobbyMetaOp? || op.EraseLobbyMetaOp?)
    ensures op.SetLobbyMetaOp? ==> IdleClock(s, SetLobbyField(s, op.initiator, op.key, op.value, now).state, l, now)
    ensures op.EraseLobbyMetaOp? ==> IdleClock(s, EraseLobbyField(s, op.initiator, op.key).state, l, now)
  {
    var t := if op.SetLobbyMetaOp? then SetLobbyField(s, op.initiator, op.key, op.value, now).state
             else EraseLobbyField(s, op.initiator, op.key).state;
    if t == s {
      SameLobbiesKeepClock(s, t, l, now);
    } else {
      PutLobbyKeepsClock(s, t, s.players[op.initiator].lid, l, now);
    }
  }

  lemma StepClock(s: State, op: Op, env: Env, l: LobbyId)
    requires Linked(s) && IdleOk(s) && EnvOk(s, op, env)
    ensures IdleClock(s, Step(s, op, env).state, l, env.now)
  {
    if LeavesLobbies(op) {
      LobbiesLeft(s, op, env);
      SameLobbiesKeepClock(s, Step(s, op, env).state, l, env.now);
    } else {
      match op
      case SetLobbyMetaOp(_, _, _) => LobbyFieldClock(s, op, env.now, l);
      case EraseLobbyMetaOp(_, _) => LobbyFieldClock(s, op, env.now, l);
      case SetPlayerMetaOp(_, _, _) => SameLobbiesKeepClock(s, Step(s, op, env).state, l, env.now);
      case ErasePlayerMetaOp(_, _) => SameLobbiesKeepClock(s, Step(s, op, env).state, l, env.now);
      case HostLobby(_, _, _, _, _, _) => HostClock(s, op, env, l);
      case JoinLobby(_, _, _) => JoinClock(s, op, env, l);
      case RemovePlayer(pid, reason) => RemoveClock(s, pid, reason, env.heir, env.now, l);
      case _ => AlterationClock(s, op, env.now, l);
    }
  }

  lemma IdleOkAt(r: ServerRun, i: nat)
    requires IsServerRun(r) && i < |r.states|
    ensures IdleOk(r.states[i])
  {
    ServerRunsAreValid(r, i, r.states[i]);
  }

  lemma MoveClock(r: ServerRun, i: nat, l: LobbyId)
    requires IsServerRun(r) && i < |r.moves|
    ensures IdleClock(r.states[i], r.states[i + 1], l, r.moves[i].env.now)
  {
    ServerRunsAreValid(r, i, r.states[i]);
    assert MoveAt(r, i);
    StepClock(r.states[i], r.moves[i].op, r.moves[i].env, l);
  }

  /** When the present stretch of loneliness began: with the move before state `j`. */
  ghost predicate LonelyStretch(r: ServerRun, l: LobbyId, j: nat, i: nat, since: real) {
    && 1 <= j <= i && i < |r.states| && |r.states| == |r.moves| + 1
    && LonelyFrom(r, l, j, i) && !LonelyAt(r.states[j - 1], l) && r.moves[j - 1].env.now == since
  }

  /** The idle clock is a record of history: it reads the time since which the lobby has been lonely without a break. */
  lemma {:induction false} IdleClockIsHistory(r: ServerRun, i: nat, l: LobbyId)
    requires IsServerRun(r) && i < |r.states| && l in r.states[i].lobbies
    ensures r.states[i].lobbies[l].idleSince.Some? <==> LonelyAt(r.states[i], l)
    ensures r.states[i].lobbies[l].idleSince.Some? ==>
      exists j: nat :: LonelyStretch(r, l, j, i, r.states[i].lobbies[l].idleSince.value)
  {
    IdleOkAt(r, i);
    if i > 0 && LonelyAt(r.states[i], l) {
      MoveClock(r, i - 1, l);
      var since := r.states[i].lobbies[l].idleSince.value;
      if LonelyAt(r.states[i - 1], l) {
        IdleClockIsHistory(r, i - 1, l);
        var j: nat :| LonelyStretch(r, l, j, i - 1, since);
        assert LonelyStretch(r, l, j, i, since);
      } else {
        assert LonelyStretch(r, l, i, i, since);
      }
    }
  }

  /** Long enough alone: since the move before state `j`, three minutes ago or more. */
  ghost predicate LonelyForLong(r: ServerRun, l: LobbyId, j: nat, i: nat) {
    && 1 <= j <= i && i < |r.moves| && |r.states| == |r.moves| + 1
    && LonelyFrom(r, l, j, i) && r.moves[i].env.now - r.moves[j - 1].env.now >= 180.0
  }

  /** Pruning sends off exactly the players of lobbies that have been below two players for three minutes on end. */
  lemma PruneFindsTheLonely(r: ServerRun, i: nat, q: BasicId)
    requires IsServerRun(r) && i < |r.moves| && r.moves[i].op == Prune && q in r.states[i].players
    ensures MoveAt(r, i)
    ensures SentTo(OutcomeAt(r, i).out, q) == [Disconnected(INACTIVE_LOBBY)] <==>
      exists j: nat :: LonelyForLong(r, r.states[i].players[q].lid, j, i)
    ensures SentTo(OutcomeAt(r, i).out, q) in {[], [Disconnected(INACTIVE_LOBBY)]}
  {
    assert MoveAt(r, i);
    ServerRunsAreValid(r, i, r.states[i]);
    var l, now := r.states[i].players[q].lid, r.moves[i].env.now;
    IdleClockIsHistory(r, i, l);
    if Inactive(r.states[i].lobbies[l], now) {
      var j: nat :| LonelyStretch(r, l, j, i, r.states[i].lobbies[l].idleSince.value);
      assert LonelyForLong(r, l, j, i);
    }
    forall j: nat | LonelyForLong(r, l, j, i) ensures Inactive(r.states[i].lobbies[l], now) {
      LonelyForLongIsInactive(r, l, j, i);
    }
  }

  /** Any time for which the lobby has been lonely until now lies within the present stretch. */
  lemma StretchesStartFirst(r: ServerRun, l: LobbyId, j0: nat, j: nat, i: nat, since: real)
    requires LonelyStretch(r, l, j0, i, since) && LonelyFrom(r, l, j, i) && j <= i
    ensures j0 <= j
  {
  }

  lemma LonelyForLongIsInactive(r: ServerRun, l: LobbyId, j: nat, i: nat)
    requires IsServerRun(r) && LonelyForLong(r, l, j, i)
    ensures l in r.states[i].lobbies && Inactive(r.states[i].lobbies[l], r.moves[i].env.now)
  {
    assert LonelyAt(r.states[i], l);
    IdleClockIsHistory(r, i, l);
    var since := r.states[i].lobbies[l].idleSince.value;
    var j0: nat :| LonelyStretch(r, l, j0, i, since);
    StretchesStartFirst(r, l, j0, j, i, since);
    if j0 < j {
      assert InOrder(r.moves[j0 - 1], r.moves[j - 1]);
    }
  }
}
