/** How lobbies, players and addresses come to be as they are, over runs of the event loop. */
module Histories {
  import opened Basics
  import opened Tokens
  import opened Server
  import opened ServerInvariants
  import opened EventLoop
  import opened ServerRuns
  import opened Effects

  // What can change about a lobby, and by which operation.

  /** Each part of a lobby changes by its own operation only. */
  predicate Traced(s: State, op: Op, env: Env, a: Lobby, b: Lobby, l: LobbyId) {
    && b.createdAt == a.createdAt && b.initiator == a.initiator
    && (b.capacity != a.capacity ==> op == SetCapacityOp(a.master, b.capacity))
    && (b.listed != a.listed ==> op == SetListedOp(a.master, b.listed))
    && (b.master != a.master ==> op == SetMasterOp(a.master, b.master) || (op.RemovePlayer? && op.pid == a.master))
    && (b.metadata != a.metadata ==>
         || (op.SetLobbyMetaOp? && op.initiator == a.master && b.metadata == a.metadata[op.key := op.value])
         || (op.EraseLobbyMetaOp? && op.initiator == a.master && b.metadata == a.metadata - {op.key}))
    && (b.players != a.players ==>
         || (op.JoinLobby? && op.lid == l && |a.players| < a.capacity && b.players == a.players + {env.pid})
         || (op.RemovePlayer? && op.pid in a.players && b.players == a.players - {op.pid}))
  }

  lemma FaceTraces(s: State, op: Op, env: Env, t: State, l: LobbyId)
    requires SameLobbies(s, t) && l in s.lobbies
    ensures l in t.lobbies && Traced(s, op, env, s.lobbies[l], t.lobbies[l], l)
  {
    assert Face(t.lobbies[l]) == Face(s.lobbies[l]);
  }

  lemma SettingTraces(
      s: State, p: BasicId, entitled: bool, face: Lobby, word: ServerMessage, op: Op, env: Env, o: Outcome, l: LobbyId)
    requires (entitled ==> Housed(s, p)) && Settles(s, p, entitled, face, word, env.now, o) && l in s.lobbies
    requires entitled ==> Traced(s, op, env, LobbyOf(s, p), face, s.players[p].lid)
    ensures l in o.state.lobbies && Traced(s, op, env, s.lobbies[l], o.state.lobbies[l], l)
  {
    if entitled && Allows(LobbyOf(s, p).alterations, env.now, 1) {
      OneLobbyTraces(s, s.players[p].lid, face, op, env, o.state, l);
    } else {
      FaceTraces(s, op, env, o.state, l);
    }
  }

  lemma OneLobbyTraces(s: State, lid: LobbyId, face: Lobby, op: Op, env: Env, t: State, l: LobbyId)
    requires LobbyIsNow(s, t, lid, face) && l in s.lobbies
    requires lid in s.lobbies ==> Traced(s, op, env, s.lobbies[lid], face, lid)
    ensures l in t.lobbies && Traced(s, op, env, s.lobbies[l], t.lobbies[l], l)
  {
    if l == lid {
      assert Face(t.lobbies[l]) == Face(face);
    } else {
      assert Face(t.lobbies[l]) == Face(s.lobbies[l]);
    }
  }

  lemma AlterationTraces(s: State, op: Op, env: Env, o: Outcome, l: LobbyId)
    requires IsAlteration(op) && EnvOk(s, op, env) && o == Step(s, op, env) && l in s.lobbies
    ensures l in o.state.lobbies && Traced(s, op, env, s.lobbies[l], o.state.lobbies[l], l)
  {
    var p, home := op.initiator, Home(s, op.initiator);
    match op
    case SetCapacityOp(_, c) =>
      CapacityIsSet(s, p, c, env);
      SettingTraces(s, p, Leads(s, p), home.(capacity := c), SetCapacity(c), op, env, o, l);
    case SetListedOp(_, listed) =>
      ListingIsSet(s, p, listed, env);
      SettingTraces(s, p, Leads(s, p), home.(listed := listed), SetListed(listed), op, env, o, l);
    case SetMasterOp(_, heir) =>
      MasterIsSet(s, p, heir, env);
      SettingTraces(s, p, Leads(s, p) && Effects.Mates(s, p, heir) && heir != p, home.(master := heir), SetMaster(heir),
                    op, env, o, l);
  }

  lemma FieldTraces(s: State, op: Op, env: Env, o: Outcome, l: LobbyId)
    requires ChangesFields(op) && EnvOk(s, op, env) && o == Step(s, op, env) && l in s.lobbies
    ensures l in o.state.lobbies && Traced(s, op, env, s.lobbies[l], o.state.lobbies[l], l)
  {
    match op
    case SetPlayerMetaOp(p, key, value) =>
      PlayerFieldIsSet(s, p, key, value, env);
      FaceTraces(s, op, env, o.state, l);
    case ErasePlayerMetaOp(p, key) =>
      PlayerFieldIsErased(s, p, key, env);
      FaceTraces(s, op, env, o.state, l);
    case SetLobbyMetaOp(p, key, value) =>
      LobbyFieldIsSet(s, p, key, value, env);
      if !SameLobbies(s, o.state) {
        var home := Home(s, p);
        OneLobbyTraces(s, s.players[p].lid, home.(metadata := home.metadata[key := value]), op, env, o.state, l);
      } else {
        FaceTraces(s, op, env, o.state, l);
      }
    case EraseLobbyMetaOp(p, key) =>
      LobbyFieldIsErased(s, p, key, env);
      if !SameLobbies(s, o.state) {
        var home := Home(s, p);
        OneLobbyTraces(s, s.players[p].lid, home.(metadata := home.metadata - {key}), op, env, o.state, l);
      } else {
        FaceTraces(s, op, env, o.state, l);
      }
  }

  lemma RemovalTraces(s: State, op: Op, env: Env, o: Outcome, l: LobbyId)
    requires Linked(s) && op.RemovePlayer? && EnvOk(s, op, env) && o == Step(s, op, env) && l in s.lobbies
    ensures l in o.state.lobbies ==> Traced(s, op, env, s.lobbies[l], o.state.lobbies[l], l)
    ensures l !in o.state.lobbies ==> s.lobbies[l].players == {op.pid}
  {
    PlayerIsRemoved(s, op.pid, op.reason, env);
    if op.pid in s.players {
      var stay := LobbyOf(s, op.pid).players - {op.pid};
      if stay != {} {
        var next :| Succeeds(LobbyOf(s, op.pid).master, op.pid, stay, next)
          && LeavesBehind(s, op.pid, op.reason, stay, next, o);
        OneLobbyTraces(
          s, s.players[op.pid].lid, LobbyOf(s, op.pid).(players := stay, master := next), op, env, o.state, l);
      } else if l in o.state.lobbies {
        assert Face(o.state.lobbies[l]) == Face(s.lobbies[l]);
      }
    } else {
      FaceTraces(s, op, env, o.state, l);
    }
  }

  lemma AdmissionTraces(s: State, op: Op, env: Env, o: Outcome, l: LobbyId)
    requires Admission(op) && EnvOk(s, op, env) && o == Step(s, op, env) && l in s.lobbies
    ensures l in o.state.lobbies && Traced(s, op, env, s.lobbies[l], o.state.lobbies[l], l)
  {
    if op.HostLobby? {
      LobbyIsHosted(s, op, env);
      if !SameLobbies(s, o.state) {
        assert Face(o.state.lobbies[l]) == Face(s.lobbies[l]);
      } else {
        FaceTraces(s, op, env, o.state, l);
      }
    } else {
      LobbyIsJoined(s, op.ip, op.lid, op.playerMetadata, env);
      if Joins(s, op.ip, op.lid, env.now) {
        var lobby := s.lobbies[op.lid];
        OneLobbyTraces(s, op.lid, lobby.(players := lobby.players + {env.pid}), op, env, o.state, l);
      } else {
        FaceTraces(s, op, env, o.state, l);
      }
    }
  }

  lemma OthersTrace(s: State, op: Op, env: Env, o: Outcome, l: LobbyId)
    requires !IsAlteration(op) && !ChangesFields(op) && !op.RemovePlayer? && !Admission(op)
    requires EnvOk(s, op, env) && o == Step(s, op, env) && l in s.lobbies
    ensures l in o.state.lobbies && o.state.lobbies[l] == s.lobbies[l]
  {
  }

  /** A lobby changes only as its players ask for, and goes only with its last player. */
  lemma LobbiesAreTraced(s: State, op: Op, env: Env, o: Outcome, l: LobbyId)
    requires Linked(s) && EnvOk(s, op, env) && o == Step(s, op, env) && l in s.lobbies
    ensures l in o.state.lobbies ==> Traced(s, op, env, s.lobbies[l], o.state.lobbies[l], l)
    ensures l !in o.state.lobbies ==> op.RemovePlayer? && s.lobbies[l].players == {op.pid}
  {
    if IsAlteration(op) {
      AlterationTraces(s, op, env, o, l);
    } else if ChangesFields(op) {
      FieldTraces(s, op, env, o, l);
    } else if op.RemovePlayer? {
      RemovalTraces(s, op, env, o, l);
    } else if Admission(op) {
      AdmissionTraces(s, op, env, o, l);
    } else {
      OthersTrace(s, op, env, o, l);
    }
  }

  lemma MoveTraces(r: ServerRun, k: nat, l: LobbyId, s: State, t: State)
    requires IsServerRun(r) && k < |r.moves| && s == r.states[k] && t == r.states[k + 1] && l in s.lobbies
    ensures l in t.lobbies ==> Traced(s, r.moves[k].op, r.moves[k].env, s.lobbies[l], t.lobbies[l], l)
    ensures l !in t.lobbies ==> r.moves[k].op.RemovePlayer? && s.lobbies[l].players == {r.moves[k].op.pid}
  {
    ServerRunsAreValid(r, k, s);
    assert MoveAt(r, k);
    LobbiesAreTraced(s, r.moves[k].op, r.moves[k].env, OutcomeAt(r, k), l);
  }

  // Succession.

  /** The master gives its role away, or goes. */
  predicate Resigns(op: Op, master: BasicId) {
    (op.SetMasterOp? && op.initiator == master) || (op.RemovePlayer? && op.pid == master)
  }

  ghost predicate ThereThroughout(r: ServerRun, l: LobbyId, i: nat, j: nat) {
    j < |r.states| && forall k :: i <= k <= j ==> l in r.states[k].lobbies
  }

  /** A master stays until it resigns: nothing that anybody else does can take its role away. */
  lemma {:induction false} MastersStay(r: ServerRun, l: LobbyId, i: nat, j: nat, master: BasicId)
    requires IsServerRun(r) && i <= j && ThereThroughout(r, l, i, j) && r.states[i].lobbies[l].master == master
    requires forall k :: i <= k < j ==> !Resigns(r.moves[k].op, master)
    ensures r.states[j].lobbies[l].master == master
    decreases j
  {
    if i < j {
      MastersStay(r, l, i, j - 1, master);
      MoveTraces(r, j - 1, l, r.states[j - 1], r.states[j]);
    }
  }

  // Capacity.

  predicate Overfull(s: State, l: LobbyId) {
    l in s.lobbies && |s.lobbies[l].players| > s.lobbies[l].capacity
  }

  /** The master makes the lobby smaller than it is full. */
  ghost predicate Shrinks(r: ServerRun, k: nat, l: LobbyId) {
    && k < |r.moves| && |r.states| == |r.moves| + 1 && l in r.states[k].lobbies
    && r.moves[k].op.SetCapacityOp? && r.moves[k].op.initiator == r.states[k].lobbies[l].master
    && r.moves[k].op.capacity < |r.states[k].lobbies[l].players| <= r.states[k].lobbies[l].capacity
  }

  /** A lobby has more players than it takes only if its master has made it smaller. */
  lemma {:induction false} OverfullOnceShrunk(r: ServerRun, i: nat, l: LobbyId, s: State)
    requires IsServerRun(r) && i < |r.states| && s == r.states[i] && Overfull(s, l)
    ensures exists k: nat :: k < i && Shrinks(r, k, l)
  {
    if i > 0 {
      var k: nat := i - 1;
      var before := r.states[k];
      if Overfull(before, l) {
        OverfullOnceShrunk(r, k, l, before);
      } else if l in before.lobbies {
        MoveTraces(r, k, l, before, s);
        GrownOrShrunk(before, r.moves[k].op, r.moves[k].env, before.lobbies[l], s.lobbies[l], l);
        assert Shrinks(r, k, l);
      } else {
        NewLobbiesAreRoomy(r, k, l, before, s);
      }
    }
  }

  lemma GrownOrShrunk(s: State, op: Op, env: Env, a: Lobby, b: Lobby, l: LobbyId)
    requires Traced(s, op, env, a, b, l) && |a.players| <= a.capacity && |b.players| > b.capacity
    ensures op == SetCapacityOp(a.master, b.capacity) && b.capacity < |a.players|
  {
    if op.JoinLobby? && b.players != a.players {
      JoinedSize(a.players, env.pid);
    } else {
      SubsetSize(b.players, a.players);
    }
  }

  lemma JoinedSize<T>(s: set<T>, x: T)
    ensures |s + {x}| <= |s| + 1
  {
    if x in s {
      assert s + {x} == s;
    }
  }

  lemma NewLobbiesAreRoomy(r: ServerRun, k: nat, l: LobbyId, s: State, t: State)
    requires IsServerRun(r) && k < |r.moves| && s == r.states[k] && t == r.states[k + 1]
    requires l !in s.lobbies && l in t.lobbies
    ensures !Overfull(t, l)
  {
    assert MoveAt(r, k);
    NewLobbyIsRoomy(s, r.moves[k].op, r.moves[k].env, OutcomeAt(r, k), l);
  }

  lemma NewLobbyIsRoomy(s: State, op: Op, env: Env, o: Outcome, l: LobbyId)
    requires ValidOp(op) && EnvOk(s, op, env) && o == Step(s, op, env) && l !in s.lobbies && l in o.state.lobbies
    ensures op.HostLobby? && !Overfull(o.state, l)
  {
    if op.HostLobby? {
      LobbyIsHosted(s, op, env);
      assert Face(o.state.lobbies[l]).players == {env.pid};
    } else {
      LobbiesComeByHosting(s, op, env);
    }
  }

  lemma LobbiesComeByHosting(s: State, op: Op, env: Env)
    requires EnvOk(s, op, env) && !op.HostLobby?
    ensures Step(s, op, env).state.lobbies.Keys <= s.lobbies.Keys
  {
  }

  // Births.

  /** A player stays in its lobby, keeps its birth, and has its fields changed by nobody else. */
  predicate Abides(op: Op, p: BasicId, a: Player, b: Player) {
    && b.lid == a.lid && b.birth == a.birth
    && (b.metadata != a.metadata ==>
         || (op.SetPlayerMetaOp? && op.pid == p && b.metadata == a.metadata[op.key := op.value])
         || (op.ErasePlayerMetaOp? && op.pid == p && b.metadata == a.metadata - {op.key}))
  }

  lemma LookAbides(s: State, t: State, op: Op, p: BasicId)
    requires p in s.players && p in t.players && Look(t.players[p]) == Look(s.players[p])
    ensures Abides(op, p, s.players[p], t.players[p])
  {
    assert Look(t.players[p]).metadata == Look(s.players[p]).metadata;
  }

  lemma OthersKeepPlayers(s: State, op: Op, env: Env, o: Outcome)
    requires !IsAlteration(op) && !ChangesFields(op) && !op.RemovePlayer? && !Admission(op)
    requires EnvOk(s, op, env) && o == Step(s, op, env)
    ensures o.state.players == s.players
  {
  }

  lemma AlterationsKeepPlayers(s: State, op: Op, env: Env, o: Outcome)
    requires IsAlteration(op) && EnvOk(s, op, env) && o == Step(s, op, env)
    ensures SamePlayers(s, o.state)
  {
    match op
    case SetCapacityOp(p, c) => CapacityIsSet(s, p, c, env);
    case SetListedOp(p, listed) => ListingIsSet(s, p, listed, env);
    case SetMasterOp(p, heir) => MasterIsSet(s, p, heir, env);
  }

  lemma FieldsAbide(s: State, op: Op, env: Env, o: Outcome, p: BasicId)
    requires ChangesFields(op) && EnvOk(s, op, env) && o == Step(s, op, env) && p in s.players && p in o.state.players
    ensures Abides(op, p, s.players[p], o.state.players[p])
  {
    match op {
      case SetPlayerMetaOp(q, key, value) => PlayerFieldIsSet(s, q, key, value, env);
      case ErasePlayerMetaOp(q, key) => PlayerFieldIsErased(s, q, key, env);
      case SetLobbyMetaOp(q, key, value) => LobbyFieldIsSet(s, q, key, value, env);
      case EraseLobbyMetaOp(q, key) => LobbyFieldIsErased(s, q, key, env);
    }
    if SamePlayers(s, o.state) || p != op.pid {
      LookAbides(s, o.state, op, p);
    } else {
      assert Look(o.state.players[p]).birth == s.players[p].birth;
      assert Look(o.state.players[p]).metadata == o.state.players[p].metadata;
    }
  }

  lemma AdmissionsAbide(s: State, op: Op, env: Env, o: Outcome, p: BasicId)
    requires Admission(op) && EnvOk(s, op, env) && o == Step(s, op, env) && p in s.players && p in o.state.players
    ensures Abides(op, p, s.players[p], o.state.players[p])
  {
    if op.HostLobby? {
      LobbyIsHosted(s, op, env);
    } else {
      LobbyIsJoined(s, op.ip, op.lid, op.playerMetadata, env);
    }
    LookAbides(s, o.state, op, p);
  }

  lemma PlayersAbide(s: State, op: Op, env: Env, o: Outcome, p: BasicId)
    requires Linked(s) && EnvOk(s, op, env) && o == Step(s, op, env) && p in s.players && p in o.state.players
    ensures Abides(op, p, s.players[p], o.state.players[p])
  {
    if IsAlteration(op) {
      AlterationsKeepPlayers(s, op, env, o);
      LookAbides(s, o.state, op, p);
    } else if ChangesFields(op) {
      FieldsAbide(s, op, env, o, p);
    } else if op.RemovePlayer? {
      PlayerIsRemoved(s, op.pid, op.reason, env);
      LookAbides(s, o.state, op, p);
    } else if Admission(op) {
      AdmissionsAbide(s, op, env, o, p);
    } else {
      OthersKeepPlayers(s, op, env, o);
    }
  }

  /** Nobody's birth lies after `now`. */
  ghost predicate Born(s: State, now: real) {
    && (forall l :: l in s.lobbies ==> s.lobbies[l].createdAt <= now)
    && (forall p :: p in s.players && s.players[p].lid in s.lobbies ==> BornBy(s, p, now))
  }

  predicate BornBy(s: State, p: BasicId, now: real)
    requires Housed(s, p)
  {
    s.players[p].birth as real <= 1000.0 * (now - LobbyOf(s, p).createdAt)
  }

  lemma BornLater(s: State, p: BasicId, now: real, later: real)
    requires Housed(s, p) && BornBy(s, p, now) && now <= later
    ensures BornBy(s, p, later)
  {
  }

  lemma StepKeepsBirths(s: State, op: Op, env: Env, o: Outcome, now: real)
    requires Linked(s) && Born(s, now) && now <= env.now && EnvOk(s, op, env) && o == Step(s, op, env)
    ensures Born(o.state, env.now)
  {
    var t := o.state;
    forall l | l in t.lobbies ensures t.lobbies[l].createdAt <= env.now {
      if l in s.lobbies {
        LobbiesAreTraced(s, op, env, o, l);
      } else {
        NewLobbyIsNew(s, op, env, o, l);
      }
    }
    forall p | p in t.players && t.players[p].lid in t.lobbies ensures BornBy(t, p, env.now) {
      if p in s.players {
        PlayersAbide(s, op, env, o, p);
        LobbiesAreTraced(s, op, env, o, s.players[p].lid);
        BornLater(s, p, now, env.now);
      } else {
        NewcomerIsBorn(s, op, env, o, p);
      }
    }
  }

  lemma NewLobbyIsNew(s: State, op: Op, env: Env, o: Outcome, l: LobbyId)
    requires EnvOk(s, op, env) && o == Step(s, op, env) && l !in s.lobbies && l in o.state.lobbies
    ensures o.state.lobbies[l].createdAt == env.now
  {
    if op.HostLobby? {
      LobbyIsHosted(s, op, env);
      assert Face(o.state.lobbies[l]).createdAt == env.now;
    } else {
      LobbiesComeByHosting(s, op, env);
    }
  }

  /** A newcomer to a lobby that is there is born in the millisecond it comes in. */
  lemma NewcomerIsBorn(s: State, op: Op, env: Env, o: Outcome, p: BasicId)
    requires EnvOk(s, op, env) && o == Step(s, op, env) && p !in s.players && p in o.state.players
    requires forall l :: l in s.lobbies ==> s.lobbies[l].createdAt <= env.now
    ensures Housed(o.state, p) && BornBy(o.state, p, env.now)
    ensures 1000.0 * (env.now - LobbyOf(o.state, p).createdAt) < o.state.players[p].birth as real + 1.0
  {
    if op.HostLobby? {
      LobbyIsHosted(s, op, env);
      assert Look(o.state.players[p]).lid == LobbyId(op.gid, env.lid);
      assert Face(o.state.lobbies[LobbyId(op.gid, env.lid)]).createdAt == env.now;
    } else if op.JoinLobby? {
      LobbyIsJoined(s, op.ip, op.lid, op.playerMetadata, env);
      assert Face(o.state.lobbies[op.lid]).createdAt == s.lobbies[op.lid].createdAt;
      assert Look(o.state.players[p]).birth == o.state.players[p].birth;
    } else {
      PlayersComeByAdmission(s, op, env);
    }
  }

  lemma PlayersComeByAdmission(s: State, op: Op, env: Env)
    requires EnvOk(s, op, env) && !Admission(op)
    ensures Step(s, op, env).state.players.Keys <= s.players.Keys
  {
  }

  lemma {:induction false} RunsAreBorn(r: ServerRun, i: nat, s: State, now: real)
    requires IsServerRun(r) && i < |r.states| && s == r.states[i]
    requires i > 0 ==> r.moves[i - 1].env.now <= now
    ensures Born(s, now)
  {
    if i > 0 {
      var k: nat := i - 1;
      var at := r.moves[k].env.now;
      if k > 0 {
        assert InOrder(r.moves[k - 1], r.moves[k]);
      }
      RunsAreBorn(r, k, r.states[k], at);
      ServerRunsAreValid(r, k, r.states[k]);
      assert MoveAt(r, k);
      StepKeepsBirths(r.states[k], r.moves[k].op, r.moves[k].env, OutcomeAt(r, k), at);
      forall p | p in s.players && s.players[p].lid in s.lobbies ensures BornBy(s, p, now) {
        BornLater(s, p, at, now);
      }
    }
  }

  /** Births tell who came first: in one lobby whoever was there before another has the smaller birth, or the same. */
  lemma {:induction false} BirthsFollowArrivals(r: ServerRun, i: nat, j: nat, p: BasicId, q: BasicId, t: State)
    requires IsServerRun(r) && i < j < |r.states| && t == r.states[j]
    requires p in r.states[i].players && q !in r.states[i].players
    requires p in t.players && q in t.players && t.players[p].lid == t.players[q].lid
    ensures t.players[p].birth <= t.players[q].birth
    decreases j
  {
    var k: nat := j - 1;
    var s, op, env := r.states[k], r.moves[k].op, r.moves[k].env;
    StillThere(r, i, k, p);
    ServerRunsAreValid(r, k, s);
    assert MoveAt(r, k);
    PlayersAbide(s, op, env, OutcomeAt(r, k), p);
    if q in s.players {
      PlayersAbide(s, op, env, OutcomeAt(r, k), q);
      BirthsFollowArrivals(r, i, k, p, q, s);
    } else {
      if k > 0 {
        assert InOrder(r.moves[k - 1], r.moves[k]);
      }
      RunsAreBorn(r, k, s, env.now);
      NewcomerIsBorn(s, op, env, OutcomeAt(r, k), q);
      RunsAreBorn(r, j, t, env.now);
      assert BornBy(t, p, env.now);
    }
  }

  /** Who is there now and was there before has been there all the time. */
  lemma StillThere(r: ServerRun, i: nat, k: nat, p: BasicId)
    requires IsServerRun(r) && i <= k && k + 1 < |r.states|
    requires p in r.states[i].players && p in r.states[k + 1].players
    ensures p in r.states[k].players
  {
    if p !in r.states[k].players {
      var gone := FirstGone(r, i, k, p);
      LeftForGood(r, gone, k + 1, p);
    }
  }

  lemma {:induction false} FirstGone(r: ServerRun, i: nat, k: nat, p: BasicId) returns (gone: nat)
    requires i <= k < |r.states| && p in r.states[i].players && p !in r.states[k].players
    ensures i <= gone < k && p in r.states[gone].players && p !in r.states[gone + 1].players
    decreases k - i
  {
    if p in r.states[i + 1].players {
      gone := FirstGone(r, i + 1, k, p);
    } else {
      gone := i;
    }
  }

  // Resting addresses.

  ghost predicate Resting(r: ServerRun, ip: Ip, j: nat, i: nat) {
    i < |r.states| && forall k :: j <= k <= i ==> ip in r.states[k].peers && SessionsFrom(r.states[k], ip) == 0
  }

  /** The address has rested since its last session was closed, by the move before state `j`. */
  ghost predicate RestsSince(r: ServerRun, ip: Ip, j: nat, i: nat, since: real) {
    && 1 <= j <= i && |r.states| == |r.moves| + 1 && Resting(r, ip, j, i)
    && SessionsFrom(r.states[j - 1], ip) == 1
    && r.moves[j - 1].op == CloseSession(ip) && r.moves[j - 1].env.now == since
  }

  /** A peer that decays did so before, or has just lost its last session. */
  lemma DecayBegins(s: State, op: Op, env: Env, o: Outcome, ip: Ip)
    requires PeersOk(s.peers) && EnvOk(s, op, env) && o == Step(s, op, env)
    requires ip in o.state.peers && o.state.peers[ip].sessions.Decaying?
    ensures ip in s.peers
    ensures s.peers[ip].sessions != o.state.peers[ip].sessions ==>
      op == CloseSession(ip) && SessionsFrom(s, ip) == 1 && o.state.peers[ip].sessions.since == env.now
  {
    if op.CloseSession? {
      SessionIsClosed(s, op.ip, env);
    } else if op.IntroduceSession? {
      SessionIsIntroduced(s, op.ip, env);
    } else if op.Prune? {
      RestingAreForgotten(s, env);
    } else {
      OthersKeepSessions(s, op, env, ip);
    }
  }

  lemma OthersKeepSessions(s: State, op: Op, env: Env, ip: Ip)
    requires EnvOk(s, op, env) && !op.CloseSession? && !op.IntroduceSession? && !op.Prune?
    ensures var t := Step(s, op, env).state;
      t.peers.Keys == s.peers.Keys && (ip in s.peers ==> t.peers[ip].sessions == s.peers[ip].sessions)
  {
    if LeavesPeers(op) {
      PeersLeft(s, op, env);
    } else {
      PeersCharged(s, op, env);
    }
  }

  /** An address's decay is a record of history: it reads the time since which no session of it has been there. */
  lemma {:induction false} DecayIsHistory(r: ServerRun, i: nat, ip: Ip, s: State)
    requires IsServerRun(r) && i < |r.states| && s == r.states[i] && ip in s.peers
    ensures s.peers[ip].sessions.Decaying? <==> SessionsFrom(s, ip) == 0
    ensures s.peers[ip].sessions.Decaying? ==>
      exists j: nat :: RestsSince(r, ip, j, i, s.peers[ip].sessions.since)
  {
    ServerRunsAreValid(r, i, s);
    if i > 0 && s.peers[ip].sessions.Decaying? {
      var k: nat := i - 1;
      var before, since := r.states[k], s.peers[ip].sessions.since;
      ServerRunsAreValid(r, k, before);
      assert MoveAt(r, k);
      DecayBegins(before, r.moves[k].op, r.moves[k].env, OutcomeAt(r, k), ip);
      if before.peers[ip].sessions == s.peers[ip].sessions {
        DecayIsHistory(r, k, ip, before);
        var j: nat :| RestsSince(r, ip, j, k, since);
        assert RestsSince(r, ip, j, i, since);
      } else {
        assert RestsSince(r, ip, i, i, since);
      }
    }
  }

  /** The address has had no session for a minute, counting from the closing of its last. */
  ghost predicate RestedEnough(r: ServerRun, ip: Ip, j: nat, i: nat) {
    && i < |r.moves| && 1 <= j <= i && |r.states| == |r.moves| + 1
    && RestsSince(r, ip, j, i, r.moves[j - 1].env.now) && r.moves[i].env.now - r.moves[j - 1].env.now >= 60.0
  }

  /** Pruning forgets exactly the addresses that have had no session for a minute on end. */
  lemma PruneForgetsTheResting(r: ServerRun, i: nat, ip: Ip)
    requires IsServerRun(r) && i < |r.moves| && r.moves[i].op == Prune && ip in r.states[i].peers
    ensures ip !in r.states[i + 1].peers <==> exists j: nat :: RestedEnough(r, ip, j, i)
  {
    assert MoveAt(r, i);
    var s, sessions := r.states[i], r.states[i].peers[ip].sessions;
    RestingAreForgotten(s, r.moves[i].env);
    DecayIsHistory(r, i, ip, s);
    if sessions.Decaying? {
      var j: nat :| RestsSince(r, ip, j, i, sessions.since);
      assert ip !in r.states[i + 1].peers ==> RestedEnough(r, ip, j, i);
      forall j': nat | RestedEnough(r, ip, j', i) ensures j' == j {
        OneBeginning(r, ip, j, j', i, sessions.since, r.moves[j' - 1].env.now);
      }
    }
  }

  lemma OneBeginning(r: ServerRun, ip: Ip, j: nat, j': nat, i: nat, since: real, since': real)
    requires RestsSince(r, ip, j, i, since) && RestsSince(r, ip, j', i, since')
    ensures j == j'
  {
  }
}
