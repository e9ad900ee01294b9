/** Lobbies do not get in each other's way: what an operation in one lobby can change and whom it can reach. */
module Isolation {
  import opened Basics
  import opened Tokens
  import opened Server
  import opened ServerInvariants
  import opened EventLoop
  import opened ServerRuns

  function LobbyIdOf(s: State, p: BasicId): Option<LobbyId> {
    if p in s.players then Some(s.players[p].lid) else None
  }

  /** The lobby that an operation is about, if it is about one: its initiator's, or the one being made or joined. */
  function Concerned(s: State, op: Op, env: Env): Option<LobbyId> {
    match op
    case SetCapacityOp(p, _) => LobbyIdOf(s, p)
    case SetListedOp(p, _) => LobbyIdOf(s, p)
    case SetMasterOp(p, _) => LobbyIdOf(s, p)
    case SetPlayerMetaOp(p, _, _) => LobbyIdOf(s, p)
    case ErasePlayerMetaOp(p, _) => LobbyIdOf(s, p)
    case SetLobbyMetaOp(p, _, _) => LobbyIdOf(s, p)
    case EraseLobbyMetaOp(p, _) => LobbyIdOf(s, p)
    case Relay(p, _, _) => LobbyIdOf(s, p)
    case KickPlayer(p, _) => LobbyIdOf(s, p)
    case RemovePlayer(p, _) => LobbyIdOf(s, p)
    case HostLobby(_, gid, _, _, _, _) => Some(LobbyId(gid, env.lid))
    case JoinLobby(_, lid, _) => Some(lid)
    case _ => None
  }

  predicate LivesIn(s: State, p: BasicId, l: LobbyId) {
    p in s.players && s.players[p].lid == l
  }

  /** The lobby, its place in the index and its players are as they were, and no one has come in. */
  ghost predicate Untouched(s: State, t: State, l: LobbyId) {
    && (l in t.lobbies <==> l in s.lobbies)
    && (l in s.lobbies ==> t.lobbies[l] == s.lobbies[l])
    && (forall p :: LivesIn(t, p, l) <==> LivesIn(s, p, l))
    && (forall p :: LivesIn(s, p, l) ==> t.players[p] == s.players[p])
  }

  /** Everything happens in lobby `l`: the others are untouched, and messages go to its players before or after only. */
  ghost predicate Confined(s: State, o: Outcome, l: LobbyId) {
    && (forall other :: other != l ==> Untouched(s, o.state, other))
    && (forall p :: p in o.out ==> LivesIn(s, p, l) || LivesIn(o.state, p, l))
  }

  lemma AlterConfined(s: State, initiator: BasicId, changed: Lobby, msg: ServerMessage, now: real)
    requires Linked(s) && IsMaster(s, initiator)
    ensures Confined(s, Alter(s, initiator, changed, msg, now), s.players[initiator].lid)
  {
  }

  lemma AlterationConfined(s: State, op: Op, now: real)
    requires Linked(s) && IsAlteration(op) && op.initiator in s.players
    ensures Confined(s, Alteration(s, op, now), s.players[op.initiator].lid)
  {
    if Entitled(s, op) {
      var (changed, msg) := Requested(LobbyOf(s, op.initiator), op);
      AlterConfined(s, op.initiator, changed, msg, now);
    }
  }

  lemma FieldSetConfined(s: State, p: BasicId, key: Text, value: Text, now: real)
    requires Linked(s) && p in s.players
    ensures Confined(s, SetPlayerField(s, p, key, value, now), s.players[p].lid)
  {
  }

  lemma FieldErasedConfined(s: State, p: BasicId, key: Text)
    requires Linked(s) && p in s.players
    ensures Confined(s, ErasePlayerField(s, p, key), s.players[p].lid)
  {
  }

  lemma LobbyFieldSetConfined(s: State, p: BasicId, key: Text, value: Text, now: real)
    requires Linked(s) && p in s.players
    ensures Confined(s, SetLobbyField(s, p, key, value, now), s.players[p].lid)
  {
  }

  lemma LobbyFieldErasedConfined(s: State, p: BasicId, key: Text)
    requires Linked(s) && p in s.players
    ensures Confined(s, EraseLobbyField(s, p, key), s.players[p].lid)
  {
  }

  lemma LeavingConfined(s: State, o: Outcome, p: BasicId)
    requires Linked(s) && p in s.players && o.state.players == s.players - {p}
    requires var lid := s.players[p].lid;
      || o.state.lobbies == s.lobbies - {lid}
      || (lid in o.state.lobbies && o.state.lobbies == s.lobbies[lid := o.state.lobbies[lid]])
    requires o.out.Keys <= LobbyOf(s, p).players
    ensures Confined(s, o, s.players[p].lid)
  {
  }

  lemma RemoveConfined(s: State, p: BasicId, reason: Kick, heir: BasicId, now: real)
    requires Linked(s) && p in s.players
    ensures Confined(s, Remove(s, p, reason, heir, now), s.players[p].lid)
  {
    var lobby := Departed(LobbyOf(s, p), p, heir, now);
    if lobby.master == NULL {
      RemovedLast(s, p, reason, heir, now);
    } else {
      RemovedOne(s, p, reason, heir, now);
    }
    LeavingConfined(s, Remove(s, p, reason, heir, now), p);
  }

  lemma EnteringConfined(s: State, o: Outcome, lid: LobbyId, pid: BasicId)
    requires lid in s.lobbies && pid !in s.players
    requires forall p :: p in s.lobbies[lid].players ==> LivesIn(s, p, lid)
    requires o.state.lobbies == s.lobbies[lid := Entered(s.lobbies[lid], pid)]
    requires pid in o.state.players && o.state.players[pid].lid == lid
    requires o.state.players == s.players[pid := o.state.players[pid]]
    requires o.out.Keys == s.lobbies[lid].players + {pid}
    ensures Confined(s, o, lid)
  {
  }

  lemma JoinConfined(s: State, op: Op, env: Env)
    requires Linked(s) && op.JoinLobby? && EnvOk(s, op, env)
    ensures Confined(s, Join(s, op, env), op.lid)
  {
    var s1 := ChargePeer(s, op.ip, env.now);
    if JoinDenial(s, op, env.now).None? {
      EnteringConfined(s, Insert(s1, op.lid, env.pid, op.playerMetadata, env), op.lid, env.pid);
    } else {
      assert Join(s, op, env).state == s1 && Join(s, op, env).out == map[];
    }
  }

  lemma FoundingConfined(s: State, o: Outcome, lid: LobbyId, pid: BasicId)
    requires pid !in s.players && lid in o.state.lobbies && pid in o.state.players && o.state.players[pid].lid == lid
    requires o.state.lobbies == s.lobbies[lid := o.state.lobbies[lid]]
    requires o.state.players == s.players[pid := o.state.players[pid]] && o.out.Keys == {pid}
    ensures Confined(s, o, lid)
  {
  }

  lemma HostConfined(s: State, op: Op, env: Env)
    requires op.HostLobby? && EnvOk(s, op, env)
    ensures Confined(s, Host(s, op, env), LobbyId(op.gid, env.lid))
  {
    if HostDenial(s, op, env.now).None? {
      HostedAs(s, op, env);
      HostedTells(s, op, env);
      FoundingConfined(s, Host(s, op, env), LobbyId(op.gid, env.lid), env.pid);
    }
  }

  lemma MessageConfined(s: State, op: Op, env: Env, p: BasicId)
    requires (op.Relay? && p == op.from) || (op.KickPlayer? && p == op.kicker)
    requires p in s.players && EnvOk(s, op, env)
    ensures Confined(s, Step(s, op, env), s.players[p].lid)
  {
  }

  lemma ChangeConfined(s: State, op: Op, env: Env)
    requires Linked(s) && EnvOk(s, op, env) && ChangesFields(op) && Concerned(s, op, env).Some?
    ensures Confined(s, FieldChange(s, op, env.now), Concerned(s, op, env).value)
  {
    match op
    case SetPlayerMetaOp(p, key, value) => FieldSetConfined(s, p, key, value, env.now);
    case ErasePlayerMetaOp(p, key) => FieldErasedConfined(s, p, key);
    case SetLobbyMetaOp(p, key, value) => LobbyFieldSetConfined(s, p, key, value, env.now);
    case EraseLobbyMetaOp(p, key) => LobbyFieldErasedConfined(s, p, key);
  }

  /** The outcome of an operation in which no one takes part. */
  ghost predicate AboutNoLobby(s: State, op: Op, now: real, o: Outcome) {
    && o.state.lobbies == s.lobbies && o.state.players == s.players && o.state.gidLobbies == s.gidLobbies
    && (op.Prune? ==> o.out.Keys == InactivePlayers(s, now))
    && (!op.Prune? ==> o.out == map[])
  }

  lemma UnconcernedStep(s: State, op: Op, env: Env)
    requires EnvOk(s, op, env) && Concerned(s, op, env).None?
    ensures AboutNoLobby(s, op, env.now, Step(s, op, env))
  {
  }

  /**
   * Isolation. An operation about one lobby leaves every other lobby and everyone in it as they were, and sends
   * messages only to players of its own lobby, before or after it. An operation about none changes no lobby, and
   * only pruning has anything to say, to players of idle lobbies.
   */
  lemma StepsAreConfined(s: State, op: Op, env: Env)
    requires Linked(s) && EnvOk(s, op, env)
    ensures Concerned(s, op, env).Some? ==> Confined(s, Step(s, op, env), Concerned(s, op, env).value)
    ensures Concerned(s, op, env).None? ==> AboutNoLobby(s, op, env.now, Step(s, op, env))
  {
    if Concerned(s, op, env).None? {
      UnconcernedStep(s, op, env);
    } else if IsAlteration(op) {
      AlterationConfined(s, op, env.now);
      assert Step(s, op, env) == Alteration(s, op, env.now);
    } else if ChangesFields(op) {
      ChangeConfined(s, op, env);
      assert Step(s, op, env) == FieldChange(s, op, env.now);
    } else if op.HostLobby? {
      HostConfined(s, op, env);
      assert Step(s, op, env) == Host(s, op, env);
    } else if op.JoinLobby? {
      JoinConfined(s, op, env);
      assert Step(s, op, env) == Join(s, op, env);
    } else if op.RemovePlayer? {
      RemoveConfined(s, op.pid, op.reason, env.heir, env.now);
      assert Step(s, op, env) == Remove(s, op.pid, op.reason, env.heir, env.now);
    } else {
      MessageConfined(s, op, env, if op.Relay? then op.from else op.kicker);
    }
  }

  // Over runs.

  /** The move is about another lobby, or about none. */
  predicate PassesBy(r: ServerRun, k: nat, l: LobbyId)
    requires k < |r.moves| && k < |r.states|
  {
    Concerned(r.states[k], r.moves[k].op, r.moves[k].env) != Some(l)
  }

  /** The move says nothing to the lobby's players, unless it is a pruning. */
  ghost predicate Unspoken(r: ServerRun, k: nat, l: LobbyId)
    requires |r.states| == |r.moves| + 1 && k < |r.moves|
  {
    MoveAt(r, k) && (!r.moves[k].op.Prune? ==> forall p :: LivesIn(r.states[k], p, l) ==> p !in OutcomeAt(r, k).out)
  }

  lemma StepPassesBy(s: State, op: Op, env: Env, o: Outcome, l: LobbyId)
    requires Linked(s) && EnvOk(s, op, env) && o == Step(s, op, env) && Concerned(s, op, env) != Some(l)
    ensures Untouched(s, o.state, l) && (!op.Prune? ==> forall p :: LivesIn(s, p, l) ==> p !in o.out)
  {
    StepsAreConfined(s, op, env);
  }

  lemma MovePassesBy(r: ServerRun, k: nat, l: LobbyId)
    requires IsServerRun(r) && k < |r.moves| && PassesBy(r, k, l)
    ensures Untouched(r.states[k], r.states[k + 1], l) && Unspoken(r, k, l)
  {
    assert MoveAt(r, k);
    ServerRunsAreValid(r, k, r.states[k]);
    StepPassesBy(r.states[k], r.moves[k].op, r.moves[k].env, OutcomeAt(r, k), l);
  }

  /** A lobby that no move is about stays as it is, however much goes on elsewhere, and only pruning speaks to it. */
  lemma {:induction false} LobbiesAreLeftAlone(r: ServerRun, l: LobbyId, i: nat, j: nat)
    requires IsServerRun(r) && i <= j < |r.states|
    requires forall k: nat :: i <= k < j ==> PassesBy(r, k, l)
    ensures Untouched(r.states[i], r.states[j], l)
    ensures forall k: nat :: i <= k < j ==> Unspoken(r, k, l)
    decreases j - i
  {
    if i < j {
      LobbiesAreLeftAlone(r, l, i, j - 1);
      MovePassesBy(r, j - 1, l);
    }
  }

  // Who can be told to go, and by whom.

  /** Why a player may be told to go: its own removal, its master's wish, idleness, or a budget it has overspent. */
  predicate FarewellCause(s: State, op: Op, q: BasicId, reason: Kick, now: real) {
    match op
    case RemovePlayer(p, why) => p == q && why == reason && q in s.players
    case KickPlayer(kicker, kickee) =>
      && kickee == q && reason == KICKED && IsMaster(s, kicker) && q in s.players
      && s.players[q].lid == s.players[kicker].lid
    case Prune => q in InactivePlayers(s, now) && reason == INACTIVE_LOBBY
    case SetPlayerMetaOp(p, key, value) =>
      && p == q && q in s.players && (key in s.players[q].metadata || |s.players[q].metadata| < 16)
      && Overspent(s.players[q].metadataBudget, now, |key| + |value|, reason)
    case SetLobbyMetaOp(p, key, value) =>
      && p == q && IsMaster(s, q) && (key in LobbyOf(s, q).metadata || |LobbyOf(s, q).metadata| < 16)
      && Overspent(LobbyOf(s, q).metadataBudget, now, |key| + |value|, reason)
    case SetCapacityOp(p, _) => p == q && IsMaster(s, q) && Overspent(LobbyOf(s, q).alterations, now, 1, reason)
    case SetListedOp(p, _) => p == q && IsMaster(s, q) && Overspent(LobbyOf(s, q).alterations, now, 1, reason)
    case SetMasterOp(p, heir) =>
      && p == q && IsMaster(s, q) && heir != q && heir in s.players && s.players[heir].lid == s.players[q].lid
      && Overspent(LobbyOf(s, q).alterations, now, 1, reason)
    case _ => false
  }

  /** The budget does not allow what was asked of it, and is named as the reason. */
  predicate Overspent(b: Bucket, now: real, count: nat, reason: Kick) {
    !Allows(b, now, count) && reason == Violated(b)
  }

  predicate NoFarewell(msgs: seq<ServerMessage>) {
    forall i :: 0 <= i < |msgs| ==> !msgs[i].Disconnected?
  }

  lemma {:induction false} MetaBidsNoFarewell(m: Metadata, keys: seq<Text>)
    requires forall k :: k in keys ==> k in m
    ensures NoFarewell(MetaMessages(m, keys))
  {
    if keys != [] {
      MetaBidsNoFarewell(m, keys[..|keys| - 1]);
    }
  }

  lemma {:induction false} JoinedBidsNoFarewell(players: map<BasicId, Player>, members: seq<BasicId>)
    requires forall p :: p in members ==> p in players
    ensures NoFarewell(JoinedMessages(players, members))
  {
    if members != [] {
      JoinedBidsNoFarewell(players, members[..|members| - 1]);
    }
  }

  lemma InsertBidsNoFarewell(s: State, lid: LobbyId, pid: BasicId, metadata: Metadata, env: Env, q: BasicId)
    requires OrdersOk(s, lid, env)
    ensures NoFarewell(SentTo(Insert(s, lid, pid, metadata, env).out, q))
  {
    MetaBidsNoFarewell(s.lobbies[lid].metadata, env.keys);
    JoinedBidsNoFarewell(s.players, env.members);
  }

  lemma AdmissionsBidNoFarewell(s: State, op: Op, env: Env, q: BasicId)
    requires EnvOk(s, op, env) && Admission(op)
    ensures NoFarewell(SentTo(Step(s, op, env).out, q))
  {
    var s1 := ChargePeer(s, op.ip, env.now);
    if op.HostLobby? {
      if HostDenial(s, op, env.now).None? {
        HostedState(s1, op, env);
        InsertBidsNoFarewell(Founded(s1, op, env), LobbyId(op.gid, env.lid), env.pid, op.playerMetadata, env, q);
      }
    } else if JoinDenial(s, op, env.now).None? {
      InsertBidsNoFarewell(s1, op.lid, env.pid, op.playerMetadata, env, q);
    }
  }

  /** Nobody is told to go without cause, and whoever is given cause is told. */
  lemma FarewellsHaveCause(s: State, op: Op, env: Env, q: BasicId, reason: Kick, o: Outcome)
    requires EnvOk(s, op, env) && o == Step(s, op, env)
    ensures Disconnected(reason) in SentTo(o.out, q) <==> FarewellCause(s, op, q, reason, env.now)
  {
    if Admission(op) {
      AdmissionsBidNoFarewell(s, op, env, q);
    } else if IsAlteration(op) {
      AlterationFarewells(s, op, env.now, q, reason, o);
    } else if ChangesFields(op) {
      FieldFarewells(s, op, env.now, q, reason, o);
    } else {
      OtherFarewells(s, op, env, q, reason, o);
    }
  }

  lemma AlterationFarewells(s: State, op: Op, now: real, q: BasicId, reason: Kick, o: Outcome)
    requires IsAlteration(op) && o == Alteration(s, op, now)
    ensures Disconnected(reason) in SentTo(o.out, q) <==> FarewellCause(s, op, q, reason, now)
  {
  }

  lemma FieldFarewells(s: State, op: Op, now: real, q: BasicId, reason: Kick, o: Outcome)
    requires ChangesFields(op) && o == FieldChange(s, op, now)
    ensures Disconnected(reason) in SentTo(o.out, q) <==> FarewellCause(s, op, q, reason, now)
  {
  }

  lemma OtherFarewells(s: State, op: Op, env: Env, q: BasicId, reason: Kick, o: Outcome)
    requires EnvOk(s, op, env) && !Admission(op) && !IsAlteration(op) && !ChangesFields(op) && o == Step(s, op, env)
    ensures Disconnected(reason) in SentTo(o.out, q) <==> FarewellCause(s, op, q, reason, env.now)
  {
  }

  predicate NoSignal(msgs: seq<ServerMessage>) {
    forall i :: 0 <= i < |msgs| ==> !msgs[i].Relayed?
  }

  lemma {:induction false} MetaBearsNoSignal(m: Metadata, keys: seq<Text>)
    requires forall k :: k in keys ==> k in m
    ensures NoSignal(MetaMessages(m, keys))
  {
    if keys != [] {
      MetaBearsNoSignal(m, keys[..|keys| - 1]);
    }
  }

  lemma {:induction false} JoinedBearsNoSignal(players: map<BasicId, Player>, members: seq<BasicId>)
    requires forall p :: p in members ==> p in players
    ensures NoSignal(JoinedMessages(players, members))
  {
    if members != [] {
      JoinedBearsNoSignal(players, members[..|members| - 1]);
    }
  }

  lemma InsertBearsNoSignal(s: State, lid: LobbyId, pid: BasicId, metadata: Metadata, env: Env, q: BasicId)
    requires OrdersOk(s, lid, env)
    ensures NoSignal(SentTo(Insert(s, lid, pid, metadata, env).out, q))
  {
    MetaBearsNoSignal(s.lobbies[lid].metadata, env.keys);
    JoinedBearsNoSignal(s.players, env.members);
  }

  lemma AdmissionsBearNoSignal(s: State, op: Op, env: Env, q: BasicId)
    requires EnvOk(s, op, env) && Admission(op)
    ensures NoSignal(SentTo(Step(s, op, env).out, q))
  {
    var s1 := ChargePeer(s, op.ip, env.now);
    if op.HostLobby? {
      if HostDenial(s, op, env.now).None? {
        HostedState(s1, op, env);
        InsertBearsNoSignal(Founded(s1, op, env), LobbyId(op.gid, env.lid), env.pid, op.playerMetadata, env, q);
      }
    } else if JoinDenial(s, op, env.now).None? {
      InsertBearsNoSignal(s1, op.lid, env.pid, op.playerMetadata, env, q);
    }
  }

  /** A relayed signal comes from the player it names, to whom it was meant, in one lobby. */
  lemma RelayedSignalsAreGenuine(s: State, op: Op, env: Env, q: BasicId, from: BasicId, signal: Signal)
    requires EnvOk(s, op, env)
    ensures Relayed(from, signal) in SentTo(Step(s, op, env).out, q) <==>
      op == Relay(from, q, signal) && from in s.players && q in s.players && s.players[from].lid == s.players[q].lid
  {
    if Admission(op) {
      AdmissionsBearNoSignal(s, op, env, q);
    }
  }
}
