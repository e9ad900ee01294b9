/**
 * What each operation does to the lobbies and players and to whom it speaks, said in terms of what is there before and
 * after: when it takes effect, what is then different, and that everything else is as it was. Budgets are left aside;
 * `Ledgers.dfy` keeps their books.
 */
module Effects {
  import opened Basics
  import opened Tokens
  import opened Server
  import opened ServerInvariants

  const UNSEEN := Fresh("", 0.0, 0.0, 0.0, 0.0)

  /** A lobby but for its budgets and its idle clock. */
  function Face(l: Lobby): Lobby {
    l.(alterations := UNSEEN, metadataBudget := UNSEEN, idleSince := None)
  }

  /** A player but for its budget. */
  function Look(p: Player): Player {
    p.(metadataBudget := UNSEEN)
  }

  ghost predicate SameLobbies(s: State, t: State) {
    t.lobbies.Keys == s.lobbies.Keys && forall l :: l in s.lobbies ==> Face(t.lobbies[l]) == Face(s.lobbies[l])
  }

  ghost predicate SamePlayers(s: State, t: State) {
    t.players.Keys == s.players.Keys && forall p :: p in s.players ==> Look(t.players[p]) == Look(s.players[p])
  }

  ghost predicate Unchanged(s: State, t: State) {
    SameLobbies(s, t) && SamePlayers(s, t)
  }

  /** One lobby is now as `face` says; nothing else is different. */
  ghost predicate LobbyIsNow(s: State, t: State, lid: LobbyId, face: Lobby) {
    && t.lobbies.Keys == s.lobbies.Keys + {lid} && Face(t.lobbies[lid]) == Face(face)
    && (forall l :: l in s.lobbies && l != lid ==> Face(t.lobbies[l]) == Face(s.lobbies[l]))
  }

  ghost predicate PlayerIsNow(s: State, t: State, pid: BasicId, look: Player) {
    && t.players.Keys == s.players.Keys + {pid} && Look(t.players[pid]) == Look(look)
    && (forall p :: p in s.players && p != pid ==> Look(t.players[p]) == Look(s.players[p]))
  }

  /** Exactly these players are spoken to, and this is what they are told. */
  ghost predicate Told(out: Outbox, to: set<BasicId>, msgs: seq<ServerMessage>) {
    forall q :: SentTo(out, q) == if q in to then msgs else []
  }

  predicate Leads(s: State, p: BasicId) {
    p in s.players && s.players[p].lid in s.lobbies && s.lobbies[s.players[p].lid].master == p
  }

  predicate Mates(s: State, p: BasicId, q: BasicId) {
    p in s.players && q in s.players && s.players[p].lid == s.players[q].lid
  }

  predicate Housed(s: State, p: BasicId) {
    p in s.players && s.players[p].lid in s.lobbies
  }

  /** Nothing is different, except that whoever overspends a budget is sent away. */
  ghost predicate ComesToNothing(s: State, o: Outcome, p: BasicId, overspent: Option<Bucket>) {
    && Unchanged(s, o.state) && o.reply == NoReply
    && Told(o.out, if overspent.Some? then {p} else {},
            if overspent.Some? then [Disconnected(Violated(overspent.value))] else [])
  }

  /** What a change of a lobby's settings comes to, if `entitled` players of it ask for it. */
  ghost predicate Settles(s: State, p: BasicId, entitled: bool, face: Lobby, word: ServerMessage, now: real, o: Outcome)
    requires entitled ==> Housed(s, p)
  {
    if entitled && Allows(LobbyOf(s, p).alterations, now, 1) then
      && LobbyIsNow(s, o.state, s.players[p].lid, face) && SamePlayers(s, o.state) && o.reply == NoReply
      && Told(o.out, LobbyOf(s, p).players, [word])
    else
      ComesToNothing(s, o, p, if entitled then Some(LobbyOf(s, p).alterations) else None)
  }

  // Settings.

  const NOWHERE := Lobby({}, 0, NULL, map[], 0, false, None, 0.0, UNSEEN, UNSEEN)

  function Home(s: State, p: BasicId): Lobby {
    if Housed(s, p) then LobbyOf(s, p) else NOWHERE
  }

  lemma NothingComes(s: State, p: BasicId, o: Outcome)
    requires o == Nothing(s)
    ensures ComesToNothing(s, o, p, None)
  {
  }

  lemma AlterSettles(s: State, p: BasicId, changed: Lobby, word: ServerMessage, now: real, o: Outcome)
    requires Leads(s, p) && o == Alter(s, p, changed, word, now)
    ensures Settles(s, p, true, changed, word, now, o)
  {
  }

  lemma AlterationStep(s: State, op: Op, env: Env, o: Outcome)
    requires IsAlteration(op) && EnvOk(s, op, env) && o == Step(s, op, env)
    ensures o == Alteration(s, op, env.now)
  {
  }

  ghost predicate SetsCapacity(s: State, p: BasicId, capacity: nat, now: real, o: Outcome) {
    Settles(s, p, Leads(s, p), Home(s, p).(capacity := capacity), SetCapacity(capacity), now, o)
  }

  ghost predicate SetsListing(s: State, p: BasicId, listed: bool, now: real, o: Outcome) {
    Settles(s, p, Leads(s, p), Home(s, p).(listed := listed), SetListed(listed), now, o)
  }

  ghost predicate HandsOver(s: State, p: BasicId, heir: BasicId, now: real, o: Outcome) {
    Settles(
      s, p, Leads(s, p) && Mates(s, p, heir) && heir != p, Home(s, p).(master := heir), SetMaster(heir), now, o)
  }

  /** The master, and nobody else, sets how many players the lobby takes. */
  lemma CapacityIsSet(s: State, p: BasicId, capacity: nat, env: Env)
    requires EnvOk(s, SetCapacityOp(p, capacity), env)
    ensures SetsCapacity(s, p, capacity, env.now, Step(s, SetCapacityOp(p, capacity), env))
  {
    var o := Step(s, SetCapacityOp(p, capacity), env);
    AlterationStep(s, SetCapacityOp(p, capacity), env, o);
    if Leads(s, p) {
      AlterSettles(s, p, Home(s, p).(capacity := capacity), SetCapacity(capacity), env.now, o);
    } else {
      NothingComes(s, p, o);
    }
  }

  /** The master, and nobody else, sets whether the lobby is shown. */
  lemma ListingIsSet(s: State, p: BasicId, listed: bool, env: Env)
    requires EnvOk(s, SetListedOp(p, listed), env)
    ensures SetsListing(s, p, listed, env.now, Step(s, SetListedOp(p, listed), env))
  {
    var o := Step(s, SetListedOp(p, listed), env);
    AlterationStep(s, SetListedOp(p, listed), env, o);
    if Leads(s, p) {
      AlterSettles(s, p, Home(s, p).(listed := listed), SetListed(listed), env.now, o);
    } else {
      NothingComes(s, p, o);
    }
  }

  /** The master, and nobody else, hands its role to another member. */
  lemma MasterIsSet(s: State, p: BasicId, heir: BasicId, env: Env)
    requires EnvOk(s, SetMasterOp(p, heir), env)
    ensures HandsOver(s, p, heir, env.now, Step(s, SetMasterOp(p, heir), env))
  {
    var o := Step(s, SetMasterOp(p, heir), env);
    AlterationStep(s, SetMasterOp(p, heir), env, o);
    if Leads(s, p) && Mates(s, p, heir) && heir != p {
      AlterSettles(s, p, Home(s, p).(master := heir), SetMaster(heir), env.now, o);
    } else {
      NothingComes(s, p, o);
    }
  }

  // Fields.

  /** There is room for the field: it is there already, or there are fewer than sixteen. */
  predicate HasRoom(m: Metadata, key: Text) {
    key in m || |m| < 16
  }

  ghost predicate SetsPlayerField(s: State, p: BasicId, key: Text, value: Text, now: real, o: Outcome) {
    if p in s.players && HasRoom(s.players[p].metadata, key) then
      if Allows(s.players[p].metadataBudget, now, |key| + |value|) then
        PlayerSays(s, p, s.players[p].metadata[key := value], SetPlayerMeta(p, key, value), o)
      else ComesToNothing(s, o, p, Some(s.players[p].metadataBudget))
    else ComesToNothing(s, o, p, None)
  }

  ghost predicate ErasesPlayerField(s: State, p: BasicId, key: Text, o: Outcome) {
    if p in s.players && key in s.players[p].metadata then
      PlayerSays(s, p, s.players[p].metadata - {key}, ErasePlayerMeta(p, key), o)
    else ComesToNothing(s, o, p, None)
  }

  ghost predicate SetsLobbyField(s: State, p: BasicId, key: Text, value: Text, now: real, o: Outcome) {
    if Leads(s, p) && HasRoom(LobbyOf(s, p).metadata, key) then
      if Allows(LobbyOf(s, p).metadataBudget, now, |key| + |value|) then
        LobbySays(s, p, LobbyOf(s, p).metadata[key := value], SetLobbyMeta(key, value), o)
      else ComesToNothing(s, o, p, Some(LobbyOf(s, p).metadataBudget))
    else ComesToNothing(s, o, p, None)
  }

  ghost predicate ErasesLobbyField(s: State, p: BasicId, key: Text, o: Outcome) {
    if Leads(s, p) && key in LobbyOf(s, p).metadata then
      LobbySays(s, p, LobbyOf(s, p).metadata - {key}, EraseLobbyMeta(key), o)
    else ComesToNothing(s, o, p, None)
  }

  /** A player's field is set within limits and budget, and everyone hears. */
  lemma PlayerFieldIsSet(s: State, p: BasicId, key: Text, value: Text, env: Env)
    requires EnvOk(s, SetPlayerMetaOp(p, key, value), env)
    ensures SetsPlayerField(s, p, key, value, env.now, Step(s, SetPlayerMetaOp(p, key, value), env))
  {
    var o := Step(s, SetPlayerMetaOp(p, key, value), env);
    assert o == SetPlayerField(s, p, key, value, env.now);
    if p in s.players && HasRoom(s.players[p].metadata, key) {
      if Allows(s.players[p].metadataBudget, env.now, |key| + |value|) {
        PlayerFieldPaid(s, p, key, value, env.now, o);
      } else {
        PlayerFieldUnpaid(s, p, key, value, env.now, o);
      }
    } else {
      NothingComes(s, p, o);
    }
  }

  lemma PlayerFieldPaid(s: State, p: BasicId, key: Text, value: Text, now: real, o: Outcome)
    requires p in s.players && HasRoom(s.players[p].metadata, key) && o == SetPlayerField(s, p, key, value, now)
    requires Allows(s.players[p].metadataBudget, now, |key| + |value|)
    ensures PlayerSays(s, p, s.players[p].metadata[key := value], SetPlayerMeta(p, key, value), o)
  {
  }

  lemma PlayerFieldUnpaid(s: State, p: BasicId, key: Text, value: Text, now: real, o: Outcome)
    requires p in s.players && HasRoom(s.players[p].metadata, key) && o == SetPlayerField(s, p, key, value, now)
    requires !Allows(s.players[p].metadataBudget, now, |key| + |value|)
    ensures ComesToNothing(s, o, p, Some(s.players[p].metadataBudget))
  {
  }

  /** The player's metadata is now so, and its lobby has been told. */
  ghost predicate PlayerSays(s: State, p: BasicId, metadata: Metadata, word: ServerMessage, o: Outcome)
    requires p in s.players
  {
    && PlayerIsNow(s, o.state, p, s.players[p].(metadata := metadata)) && SameLobbies(s, o.state) && o.reply == NoReply
    && Told(o.out, Home(s, p).players, [word])
  }

  /** A field is taken away for nothing, if it is there. */
  lemma PlayerFieldIsErased(s: State, p: BasicId, key: Text, env: Env)
    requires EnvOk(s, ErasePlayerMetaOp(p, key), env)
    ensures ErasesPlayerField(s, p, key, Step(s, ErasePlayerMetaOp(p, key), env))
  {
    var o := Step(s, ErasePlayerMetaOp(p, key), env);
    assert o == ErasePlayerField(s, p, key);
  }

  /** The lobby's metadata is now so, and its players have been told. */
  ghost predicate LobbySays(s: State, p: BasicId, metadata: Metadata, word: ServerMessage, o: Outcome)
    requires Housed(s, p)
  {
    && LobbyIsNow(s, o.state, s.players[p].lid, LobbyOf(s, p).(metadata := metadata)) && SamePlayers(s, o.state)
    && o.reply == NoReply && Told(o.out, LobbyOf(s, p).players, [word])
  }

  /** The master, and nobody else, sets a field of the lobby within limits and budget. */
  lemma LobbyFieldIsSet(s: State, p: BasicId, key: Text, value: Text, env: Env)
    requires EnvOk(s, SetLobbyMetaOp(p, key, value), env)
    ensures SetsLobbyField(s, p, key, value, env.now, Step(s, SetLobbyMetaOp(p, key, value), env))
  {
    var o := Step(s, SetLobbyMetaOp(p, key, value), env);
    assert o == SetLobbyField(s, p, key, value, env.now);
    if Leads(s, p) && HasRoom(LobbyOf(s, p).metadata, key) {
      if Allows(LobbyOf(s, p).metadataBudget, env.now, |key| + |value|) {
        LobbyFieldPaid(s, p, key, value, env.now, o);
      } else {
        LobbyFieldUnpaid(s, p, key, value, env.now, o);
      }
    } else {
      NothingComes(s, p, o);
    }
  }

  lemma LobbyFieldPaid(s: State, p: BasicId, key: Text, value: Text, now: real, o: Outcome)
    requires Leads(s, p) && HasRoom(LobbyOf(s, p).metadata, key) && o == SetLobbyField(s, p, key, value, now)
    requires Allows(LobbyOf(s, p).metadataBudget, now, |key| + |value|)
    ensures LobbySays(s, p, LobbyOf(s, p).metadata[key := value], SetLobbyMeta(key, value), o)
  {
  }

  lemma LobbyFieldUnpaid(s: State, p: BasicId, key: Text, value: Text, now: real, o: Outcome)
    requires Leads(s, p) && HasRoom(LobbyOf(s, p).metadata, key) && o == SetLobbyField(s, p, key, value, now)
    requires !Allows(LobbyOf(s, p).metadataBudget, now, |key| + |value|)
    ensures ComesToNothing(s, o, p, Some(LobbyOf(s, p).metadataBudget))
  {
  }

  lemma LobbyFieldIsErased(s: State, p: BasicId, key: Text, env: Env)
    requires EnvOk(s, EraseLobbyMetaOp(p, key), env)
    ensures ErasesLobbyField(s, p, key, Step(s, EraseLobbyMetaOp(p, key), env))
  {
    var o := Step(s, EraseLobbyMetaOp(p, key), env);
    assert o == EraseLobbyField(s, p, key);
  }

  // Messages.

  ghost predicate Kicks(s: State, p: BasicId, q: BasicId, o: Outcome) {
    && o.state == s && o.reply == NoReply
    && if Leads(s, p) && Mates(s, p, q) then
         Told(o.out, {q}, [Disconnected(Natural("kick", "Kicked by lobby's master"))])
       else o.out == map[]
  }

  ghost predicate PassesSignal(s: State, p: BasicId, q: BasicId, signal: Signal, o: Outcome) {
    && o.state == s && o.reply == NoReply
    && if Mates(s, p, q) then Told(o.out, {q}, [Relayed(p, signal)]) else o.out == map[]
  }

  ghost predicate ListsMates(s: State, p: BasicId, o: Outcome) {
    o.state == s && o.out == map[] && o.reply.Ponged? && forall q :: q in o.reply.players <==> Mates(s, p, q)
  }

  /** The master, and nobody else, sends a member away. */
  lemma MemberIsKicked(s: State, p: BasicId, q: BasicId, env: Env)
    requires EnvOk(s, KickPlayer(p, q), env)
    ensures Kicks(s, p, q, Step(s, KickPlayer(p, q), env))
  {
  }

  lemma SignalIsPassed(s: State, p: BasicId, q: BasicId, signal: Signal, env: Env)
    requires EnvOk(s, Relay(p, q, signal), env)
    ensures PassesSignal(s, p, q, signal, Step(s, Relay(p, q, signal), env))
  {
  }

  /** A pong lists whoever shares a lobby with the player, and nobody once it is gone. */
  lemma PongIsAssembled(s: State, p: BasicId, env: Env)
    requires Linked(s) && EnvOk(s, AssemblePong(p), env)
    ensures ListsMates(s, p, Step(s, AssemblePong(p), env))
  {
  }

  // Leaving.

  /** The player is gone, and nobody else. */
  ghost predicate OnlyGone(s: State, t: State, p: BasicId) {
    && t.players.Keys == s.players.Keys - {p}
    && forall q :: q in t.players ==> Look(t.players[q]) == Look(s.players[q])
  }

  /** The lobby of the last player is gone with it, and no other lobby. */
  ghost predicate LobbyIsGone(s: State, t: State, lid: LobbyId) {
    && t.lobbies.Keys == s.lobbies.Keys - {lid}
    && forall l :: l in t.lobbies ==> Face(t.lobbies[l]) == Face(s.lobbies[l])
  }

  /** Who leads a lobby when `p` has gone and `stay` are left: who led it, or, if that was `p`, one of them. */
  predicate Succeeds(was: BasicId, p: BasicId, stay: set<BasicId>, next: BasicId) {
    if was == p then next in stay else next == was
  }

  /** What those who stay see. */
  ghost predicate LeavesBehind(s: State, p: BasicId, reason: Kick, stay: set<BasicId>, next: BasicId, o: Outcome)
    requires Housed(s, p)
  {
    && LobbyIsNow(s, o.state, s.players[p].lid, LobbyOf(s, p).(players := stay, master := next))
    && (forall q :: SentTo(o.out, q) ==
         if q == p then [Disconnected(reason)] else if q in stay then [Left(p, reason), SetMaster(next)] else [])
  }

  ghost predicate Removes(s: State, p: BasicId, reason: Kick, o: Outcome) {
    if !Housed(s, p) then ComesToNothing(s, o, p, None)
    else
      var stay := LobbyOf(s, p).players - {p};
      && OnlyGone(s, o.state, p) && o.reply == NoReply
      && (stay == {} ==> LobbyIsGone(s, o.state, s.players[p].lid) && Told(o.out, {p}, [Disconnected(reason)]))
      && (stay != {} ==>
           exists next :: Succeeds(LobbyOf(s, p).master, p, stay, next) && LeavesBehind(s, p, reason, stay, next, o))
  }

  /**
   * A player goes. The lobby goes with its last player; any other keeps its master, unless that is who goes, when it
   * gets one of those who stay.
   */
  lemma PlayerIsRemoved(s: State, p: BasicId, reason: Kick, env: Env)
    requires Linked(s) && EnvOk(s, RemovePlayer(p, reason), env)
    ensures Removes(s, p, reason, Step(s, RemovePlayer(p, reason), env))
  {
    var o := Step(s, RemovePlayer(p, reason), env);
    assert o == Remove(s, p, reason, env.heir, env.now);
    if p in s.players {
      MasterGoneIffEmpty(s, p, env.heir, env.now);
      if LobbyOf(s, p).players == {p} {
        RemovedLast(s, p, reason, env.heir, env.now);
      } else {
        RemovedOne(s, p, reason, env.heir, env.now);
        SomeStay(s, p, reason, Departed(LobbyOf(s, p), p, env.heir, env.now), o, LobbyOf(s, p).players - {p});
      }
    } else {
      NothingComes(s, p, o);
    }
  }

  lemma SomeStay(s: State, p: BasicId, reason: Kick, after: Lobby, o: Outcome, stay: set<BasicId>)
    requires Linked(s) && p in s.players && stay == LobbyOf(s, p).players - {p} && stay != {}
    requires exists heir, now :: after == Departed(LobbyOf(s, p), p, heir, now) && heir in stay
    requires o.state == State(s.gidLobbies, s.lobbies[s.players[p].lid := after], s.players - {p}, s.peers)
    requires o.out == Broadcast(stay, [Left(p, reason), SetMaster(after.master)]) + map[p := [Disconnected(reason)]]
    ensures Succeeds(LobbyOf(s, p).master, p, stay, after.master)
    ensures LeavesBehind(s, p, reason, stay, after.master, o)
  {
  }

  // Coming in.

  /** Who may join: the address is within its budget, the lobby is there, and it has not got all it takes. */
  predicate Joins(s: State, ip: Ip, lid: LobbyId, now: real) {
    && ip in s.peers && Allows(s.peers[ip].budget, now, 1)
    && lid in s.lobbies && |s.lobbies[lid].players| < s.lobbies[lid].capacity
  }

  /** The whole milliseconds from one moment to another. */
  predicate WholeMillis(ms: nat, from: real, until: real) {
    from <= until ==> ms as real <= 1000.0 * (until - from) < ms as real + 1.0
  }

  /** A newcomer under the id drawn for it is in the lobby, as it described itself, and nothing else is different. */
  ghost predicate ComesIn(s: State, t: State, lid: LobbyId, pid: BasicId, metadata: Metadata, now: real)
    requires lid in s.lobbies
  {
    && LobbyIsNow(s, t, lid, s.lobbies[lid].(players := s.lobbies[lid].players + {pid}))
    && (exists birth ::
         && WholeMillis(birth, s.lobbies[lid].createdAt, now)
         && PlayerIsNow(s, t, pid, Player(lid, metadata, birth, UNSEEN)))
  }

  /** The code of the refusal, if there is one: the first of three reasons that holds. */
  function JoinRefusal(s: State, ip: Ip, lid: LobbyId, now: real): string {
    if !(ip in s.peers && Allows(s.peers[ip].budget, now, 1)) then "rate_limited"
    else if lid !in s.lobbies then "lobby_not_found"
    else "lobby_full"
  }

  ghost predicate JoinsLobby(s: State, ip: Ip, lid: LobbyId, metadata: Metadata, env: Env, o: Outcome) {
    if Joins(s, ip, lid, env.now) then
      o.reply == Admitted(env.pid) && ComesIn(s, o.state, lid, env.pid, metadata, env.now)
    else
      && Unchanged(s, o.state) && o.out == map[]
      && o.reply.Denied? && o.reply.reason.code == JoinRefusal(s, ip, lid, env.now)
  }

  /** A lobby is joined if and only if it is there and takes one more, by an address within its budget. */
  lemma LobbyIsJoined(s: State, ip: Ip, lid: LobbyId, metadata: Metadata, env: Env)
    requires EnvOk(s, JoinLobby(ip, lid, metadata), env)
    ensures JoinsLobby(s, ip, lid, metadata, env, Step(s, JoinLobby(ip, lid, metadata), env))
  {
    var o := Step(s, JoinLobby(ip, lid, metadata), env);
    assert o == Join(s, JoinLobby(ip, lid, metadata), env);
    if Joins(s, ip, lid, env.now) {
      MillisAreWhole(s.lobbies[lid].createdAt, env.now);
      InsertComesIn(ChargePeer(s, ip, env.now), s, lid, metadata, env, o);
    }
  }

  lemma MillisAreWhole(from: real, until: real)
    ensures WholeMillis(Millis(until - from), from, until)
  {
  }

  lemma InsertComesIn(s1: State, s: State, lid: LobbyId, metadata: Metadata, env: Env, o: Outcome)
    requires OrdersOk(s1, lid, env) && s1.lobbies == s.lobbies && s1.players == s.players && env.pid !in s.players
    requires WholeMillis(Millis(env.now - s.lobbies[lid].createdAt), s.lobbies[lid].createdAt, env.now)
    requires o == Insert(s1, lid, env.pid, metadata, env)
    ensures ComesIn(s, o.state, lid, env.pid, metadata, env.now)
  {
    var birth := Millis(env.now - s.lobbies[lid].createdAt);
    assert PlayerIsNow(s, o.state, env.pid, Player(lid, metadata, birth, UNSEEN));
  }

  /** Who may host: the address is within its budget and has fewer than four lobbies; and, to be shown, none that is. */
  ghost predicate Hosts(s: State, ip: Ip, gid: GameId, listed: bool, now: real) {
    && ip in s.peers && Allows(s.peers[ip].budget, now, 1)
    && |set l | l in s.lobbies && s.lobbies[l].initiator == ip| < 4
    && (listed ==>
         && (forall l :: l in s.lobbies && s.lobbies[l].initiator == ip ==> !s.lobbies[l].listed)
         && |set l | l in s.lobbies && l.gid == gid && s.lobbies[l].listed| < 32)
  }

  /** A new lobby with its first player, who leads it, both as described; nothing else is different. */
  ghost predicate Opens(s: State, t: State, op: Op, env: Env)
    requires op.HostLobby?
  {
    var id := LobbyId(op.gid, env.lid);
    && LobbyIsNow(s, t, id, Lobby({env.pid}, op.ip, env.pid, op.lobbyMetadata, op.capacity, op.listed, None, env.now,
                                  UNSEEN, UNSEEN))
    && PlayerIsNow(s, t, env.pid, Player(id, op.playerMetadata, 0, UNSEEN))
  }

  ghost predicate HostsLobby(s: State, op: Op, env: Env, o: Outcome)
    requires op.HostLobby?
  {
    if Hosts(s, op.ip, op.gid, op.listed, env.now) then o.reply == Admitted(env.pid) && Opens(s, o.state, op, env)
    else
      Unchanged(s, o.state) && o.out == map[] && o.reply.Denied? && o.reply.reason.code == "rate_limited"
  }

  /** A lobby is made if and only if the address is within its budget and the limits on lobbies. */
  lemma LobbyIsHosted(s: State, op: Op, env: Env)
    requires op.HostLobby? && EnvOk(s, op, env)
    ensures HostsLobby(s, op, env, Step(s, op, env))
  {
    var o := Step(s, op, env);
    HostingIsAllowed(s, op, env.now);
    assert o == Host(s, op, env);
    if HostDenial(s, op, env.now).None? {
      HostedAs(s, op, env);
      HostedOpens(s, op, env, o.state);
    }
  }

  lemma HostedOpens(s: State, op: Op, env: Env, t: State)
    requires op.HostLobby? && LobbyId(op.gid, env.lid) !in s.lobbies && env.pid !in s.players
    requires var id := LobbyId(op.gid, env.lid);
      && t.lobbies == s.lobbies[id := NewLobby(op, env.pid, env.now).(players := {env.pid})]
      && t.players == s.players[
           env.pid := Player(id, op.playerMetadata, 0, FreshMetadata("player_metadata", env.now))]
    ensures Opens(s, t, op, env)
  {
  }

  lemma HostingIsAllowed(s: State, op: Op, now: real)
    requires op.HostLobby?
    ensures HostDenial(s, op, now).None? <==> Hosts(s, op.ip, op.gid, op.listed, now)
    ensures HostDenial(s, op, now).Some? ==> HostDenial(s, op, now).value.code == "rate_limited"
  {
    assert LobbiesFrom(s, op.ip) == set l | l in s.lobbies && s.lobbies[l].initiator == op.ip;
    assert ListedUnder(s, op.gid) == set l | l in s.lobbies && l.gid == op.gid && s.lobbies[l].listed;
    if ListedFrom(s, op.ip) == {} {
      forall l | l in s.lobbies && s.lobbies[l].initiator == op.ip ensures !s.lobbies[l].listed {
        assert l !in ListedFrom(s, op.ip);
      }
    }
  }

  // Listing.

  /** A lobby of the game that is shown and takes one more. */
  predicate IsOpen(s: State, gid: GameId, lid: BasicId) {
    var id := LobbyId(gid, lid);
    id in s.lobbies && s.lobbies[id].listed && |s.lobbies[id].players| < s.lobbies[id].capacity
  }

  /** An entry shows an open lobby: how many it has, how many it takes, and those of its fields that are short. */
  ghost predicate Shows(s: State, gid: GameId, entry: LobbyListing) {
    && IsOpen(s, gid, entry.lid)
    && var lobby := s.lobbies[LobbyId(gid, entry.lid)];
    && entry.players == |lobby.players| && entry.max == lobby.capacity
    && forall k :: Lookup(entry.metadata, k) ==
         if k in lobby.metadata && |k| + |lobby.metadata[k]| < 128 then Some(lobby.metadata[k]) else None
  }

  /** Each entry shows another open lobby, and none is missing unless there are as many entries as asked for, or 32. */
  ghost predicate Answers(s: State, gid: GameId, limit: nat, list: seq<LobbyListing>) {
    && |list| <= 32 && (|list| <= limit || |list| <= 1)
    && (forall i :: 0 <= i < |list| ==> Shows(s, gid, list[i]))
    && (forall i, j :: 0 <= i < j < |list| ==> list[i].lid != list[j].lid)
    && (|list| < 32 && |list| < limit ==>
         forall lid :: IsOpen(s, gid, lid) ==> exists i :: 0 <= i < |list| && list[i].lid == lid)
  }

  ghost predicate ListsOpenLobbies(s: State, ip: Ip, gid: GameId, limit: nat, now: real, o: Outcome) {
    && Unchanged(s, o.state) && o.out == map[]
    && if ip in s.peers && Allows(s.peers[ip].budget, now, 1) then
         o.reply.Listed? && Answers(s, gid, limit, o.reply.list)
       else o.reply.Denied? && o.reply.reason.code == "rate_limited"
  }

  lemma LobbiesAreListed(s: State, ip: Ip, gid: GameId, limit: nat, env: Env)
    requires EnvOk(s, ListLobbies(ip, gid, limit), env)
    ensures ListsOpenLobbies(s, ip, gid, limit, env.now, Step(s, ListLobbies(ip, gid, limit), env))
  {
    if ip in s.peers && Allows(s.peers[ip].budget, env.now, 1) {
      var s1 := ChargePeer(s, ip, env.now);
      assert Joinable(s1, gid) == Joinable(s, gid);
      ListingAnswers(s, gid, limit, env.listing);
    }
  }

  lemma ListingAnswers(s: State, gid: GameId, limit: nat, list: seq<LobbyListing>)
    requires IsListing(s, gid, limit, list)
    ensures Answers(s, gid, limit, list)
  {
    forall i | 0 <= i < |list| ensures Shows(s, gid, list[i]) {
      assert LobbyId(gid, list[i].lid) in Joinable(s, gid);
    }
    if |list| < 32 && |list| < limit {
      AllAreListed(s, gid, list);
    }
  }

  /** As many distinct entries as there are open lobbies leave none out. */
  lemma AllAreListed(s: State, gid: GameId, list: seq<LobbyListing>)
    requires |list| == |Joinable(s, gid)|
    requires forall i :: 0 <= i < |list| ==> LobbyId(gid, list[i].lid) in Joinable(s, gid)
    requires forall i, j :: 0 <= i < j < |list| ==> list[i].lid != list[j].lid
    ensures forall lid :: IsOpen(s, gid, lid) ==> exists i :: 0 <= i < |list| && list[i].lid == lid
  {
    var ids := seq(|list|, i requires 0 <= i < |list| => LobbyId(gid, list[i].lid));
    DistinctFill(ids, Joinable(s, gid));
    forall lid | IsOpen(s, gid, lid) ensures exists i :: 0 <= i < |list| && list[i].lid == lid {
      assert LobbyId(gid, lid) in Joinable(s, gid);
      var i :| 0 <= i < |ids| && ids[i] == LobbyId(gid, lid);
      assert list[i].lid == lid;
    }
  }

  lemma {:induction false} DistinctFill<T>(xs: seq<T>, all: set<T>)
    requires |xs| == |all| && forall i :: 0 <= i < |xs| ==> xs[i] in all
    requires forall i, j :: 0 <= i < j < |xs| ==> xs[i] != xs[j]
    ensures forall x :: x in all ==> x in xs
    decreases |xs|
  {
    if xs != [] {
      DistinctFill(xs[1..], all - {xs[0]});
      forall x | x in all ensures x in xs {
        assert x == xs[0] || x in xs[1..];
      }
    }
  }

  // Addresses and their sessions.

  function SessionsFrom(s: State, ip: Ip): nat {
    if ip in s.peers then s.peers[ip].Count() else 0
  }

  ghost predicate Introduces(s: State, ip: Ip, o: Outcome) {
    && Unchanged(s, o.state) && o.out == map[] && o.reply.Granted?
    && (o.reply.ok <==>
         TotalSessions(s.peers) < 1024 && SessionsFrom(s, ip) < 4 && (ip in s.peers || |s.peers| < 512))
    && SessionsFrom(o.state, ip) == SessionsFrom(s, ip) + (if o.reply.ok then 1 else 0)
    && (forall other :: other != ip ==> SessionsFrom(o.state, other) == SessionsFrom(s, other))
    && (o.reply.ok ==> ip in o.state.peers && o.state.peers[ip].sessions.Active?)
  }

  /** A session is granted up to 4 for an address, 1024 in all, and 512 addresses known. */
  lemma SessionIsIntroduced(s: State, ip: Ip, env: Env)
    requires EnvOk(s, IntroduceSession(ip), env)
    ensures Introduces(s, ip, Step(s, IntroduceSession(ip), env))
  {
  }

  ghost predicate Closes(s: State, ip: Ip, now: real, o: Outcome) {
    && Unchanged(s, o.state) && o.out == map[] && o.reply == NoReply && o.state.peers.Keys == s.peers.Keys
    && SessionsFrom(o.state, ip) == (if SessionsFrom(s, ip) > 0 then SessionsFrom(s, ip) - 1 else 0)
    && (SessionsFrom(s, ip) == 1 ==> o.state.peers[ip].sessions == Decaying(now))
    && (forall other :: other in s.peers && (other != ip || s.peers[ip].sessions.Decaying?) ==>
         o.state.peers[other] == s.peers[other])
  }

  /** A session less; the address rests from when its last has gone. */
  lemma SessionIsClosed(s: State, ip: Ip, env: Env)
    requires EnvOk(s, CloseSession(ip), env)
    ensures Closes(s, ip, env.now, Step(s, CloseSession(ip), env))
  {
  }

  ghost predicate Forgets(s: State, now: real, o: Outcome) {
    && Unchanged(s, o.state) && o.reply == NoReply
    && (forall ip :: ip in s.peers ==>
         (ip !in o.state.peers <==> s.peers[ip].sessions.Decaying? && now - s.peers[ip].sessions.since >= 60.0))
    && (forall ip :: ip in o.state.peers ==> ip in s.peers && o.state.peers[ip] == s.peers[ip])
  }

  /** An address is forgotten exactly if it has rested for a minute. */
  lemma RestingAreForgotten(s: State, env: Env)
    requires EnvOk(s, Prune, env)
    ensures Forgets(s, env.now, Step(s, Prune, env))
  {
  }
}
