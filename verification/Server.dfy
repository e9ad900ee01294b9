/**
 * The state of the event loop and what each operation does to it, as functions of the state before.
 * Clock readings, fresh ids and hash iteration orders come in through `Env`.
 */
module Server {
  import opened Basics
  import opened Tokens

  const SESSIONS_PER_IP_CAP := 4
  const GLOBAL_SESSIONS_CAP := 1024
  const GLOBAL_PEERS_CAP := 512
  const SESSION_IDLE_TIMEOUT := 60.0
  const LOBBY_LISTING_CAP := 32
  const LISTED_LOBBIES_PER_GID := 32
  const LOBBIES_PER_IP := 4
  const CHUD_THRESHOLD := 2
  const CHUD_LOBBY_TIMEOUT := 180.0

  datatype SessionCount = Active(count: nat) | Decaying(since: real)

  datatype Peer = Peer(sessions: SessionCount, budget: Bucket) {
    function Count(): nat {
      match sessions
      case Active(c) => c
      case Decaying(_) => 0
    }
  }

  function NewPeer(now: real): Peer {
    Peer(Active(1), Fresh("sessions_per_ip", 2.0, 3.0, 4.0, now))
  }

  datatype Lobby = Lobby(
    players: set<BasicId>,
    initiator: Ip,
    master: BasicId,
    metadata: Metadata,
    capacity: nat,
    listed: bool,
    idleSince: Option<real>,
    createdAt: real,
    alterations: Bucket,
    metadataBudget: Bucket)
  {
    predicate IsFull() {
      |players| >= capacity
    }
  }

  datatype Player = Player(lid: LobbyId, metadata: Metadata, birth: nat, metadataBudget: Bucket)

  datatype State = State(
    gidLobbies: map<GameId, set<BasicId>>,
    lobbies: map<LobbyId, Lobby>,
    players: map<BasicId, Player>,
    peers: map<Ip, Peer>)

  const EMPTY := State(map[], map[], map[], map[])

  datatype Op =
    | AssemblePong(pid: BasicId)
    | SetCapacityOp(initiator: BasicId, capacity: nat)
    | SetListedOp(initiator: BasicId, listed: bool)
    | SetMasterOp(initiator: BasicId, newMaster: BasicId)
    | SetPlayerMetaOp(pid: BasicId, key: Text, value: Text)
    | ErasePlayerMetaOp(pid: BasicId, key: Text)
    | SetLobbyMetaOp(initiator: BasicId, key: Text, value: Text)
    | EraseLobbyMetaOp(initiator: BasicId, key: Text)
    | Relay(from: BasicId, to: BasicId, signal: Signal)
    | ListLobbies(ip: Ip, gid: GameId, limit: nat)
    | HostLobby(ip: Ip, gid: GameId, lobbyMetadata: Metadata, capacity: nat, listed: bool, playerMetadata: Metadata)
    | JoinLobby(ip: Ip, lid: LobbyId, playerMetadata: Metadata)
    | KickPlayer(kicker: BasicId, kickee: BasicId)
    | RemovePlayer(pid: BasicId, reason: Kick)
    | IntroduceSession(ip: Ip)
    | Prune
    | CloseSession(ip: Ip)

  /** What deserialization has already checked about an operation's arguments. */
  predicate ValidOp(op: Op) {
    match op
    case SetCapacityOp(_, capacity) => ValidCapacity(capacity)
    case SetPlayerMetaOp(_, key, value) => ValidKey(key) && ValidValue(value)
    case SetLobbyMetaOp(_, key, value) => ValidKey(key) && ValidValue(value)
    case HostLobby(_, _, lobbyMetadata, capacity, _, playerMetadata) =>
      ValidCapacity(capacity) && ValidMetadata(lobbyMetadata) && ValidMetadata(playerMetadata)
    case JoinLobby(_, _, playerMetadata) => ValidMetadata(playerMetadata)
    case _ => true
  }

  /** What an operation answers to the session that waits for it. */
  datatype Reply =
    | NoReply
    | Granted(ok: bool)
    | Listed(list: seq<LobbyListing>)
    | Admitted(pid: BasicId)
    | Denied(reason: Kick)
    | Ponged(players: set<BasicId>)

  /** The messages sent while an operation runs, in order, by the player whose session they go to. */
  type Outbox = map<BasicId, seq<ServerMessage>>

  datatype Outcome = Outcome(state: State, out: Outbox, reply: Reply)

  function SentTo(out: Outbox, pid: BasicId): seq<ServerMessage> {
    if pid in out then out[pid] else []
  }

  function Broadcast(to: set<BasicId>, msgs: seq<ServerMessage>): Outbox {
    // The guard repeats the domain, so that the map says nothing of anyone outside it.
    map p | p in to :: if p in to then msgs else []
  }

  function Nothing(s: State): Outcome {
    Outcome(s, map[], NoReply)
  }

  /** The choices made while an operation runs: the clock, two random ids, and iteration orders. */
  datatype Env = Env(
    now: real,
    pid: BasicId,
    lid: BasicId,
    members: seq<BasicId>,
    keys: seq<Text>,
    heir: BasicId,
    listing: seq<LobbyListing>)

  // The pieces the operations share.

  /** Taking one unit from the budget of an address; an unknown address has none. */
  predicate PassesCap(s: State, ip: Ip, now: real) {
    ip in s.peers && Allows(s.peers[ip].budget, now, 1)
  }

  function ChargePeer(s: State, ip: Ip, now: real): State {
    if ip in s.peers then
      s.(peers := s.peers[ip := s.peers[ip].(budget := Taken(s.peers[ip].budget, now, 1))])
    else s
  }

  predicate IsMaster(s: State, pid: BasicId) {
    && pid in s.players
    && s.players[pid].lid in s.lobbies
    && s.lobbies[s.players[pid].lid].master == pid
  }

  function LobbyOf(s: State, pid: BasicId): Lobby
    requires pid in s.players && s.players[pid].lid in s.lobbies
  {
    s.lobbies[s.players[pid].lid]
  }

  function PutLobby(s: State, lid: LobbyId, lobby: Lobby): State {
    s.(lobbies := s.lobbies[lid := lobby])
  }

  function PutPlayer(s: State, pid: BasicId, player: Player): State {
    s.(players := s.players[pid := player])
  }

  function Boot(pid: BasicId, b: Bucket): Outbox {
    map[pid := [Disconnected(Violated(b))]]
  }

  /**
   * A change by the lobby's master, paid for from the lobby's alterations budget and announced to every member.
   * `changed` is the lobby with the change and the budget still as it was.
   */
  function Alter(s: State, initiator: BasicId, changed: Lobby, msg: ServerMessage, now: real): Outcome
    requires IsMaster(s, initiator)
  {
    var lobby := LobbyOf(s, initiator);
    var budget := Taken(lobby.alterations, now, 1);
    if Allows(lobby.alterations, now, 1) then
      Outcome(PutLobby(s, s.players[initiator].lid, changed.(alterations := budget)),
              Broadcast(lobby.players, [msg]), NoReply)
    else
      Outcome(PutLobby(s, s.players[initiator].lid, lobby.(alterations := budget)),
              Boot(initiator, lobby.alterations), NoReply)
  }

  predicate IsAlteration(op: Op) {
    op.SetCapacityOp? || op.SetListedOp? || op.SetMasterOp?
  }

  /** The lobby as an alteration would leave it, and the announcement of the alteration. */
  function Requested(lobby: Lobby, op: Op): (Lobby, ServerMessage)
    requires IsAlteration(op)
  {
    match op
    case SetCapacityOp(_, c) => (lobby.(capacity := c), SetCapacity(c))
    case SetListedOp(_, l) => (lobby.(listed := l), SetListed(l))
    case SetMasterOp(_, m) => (lobby.(master := m), SetMaster(m))
  }

  predicate Entitled(s: State, op: Op)
    requires IsAlteration(op)
  {
    && IsMaster(s, op.initiator)
    && (op.SetMasterOp? ==>
         && op.newMaster != op.initiator && op.newMaster in s.players
         && s.players[op.newMaster].lid == s.players[op.initiator].lid)
  }

  function Alteration(s: State, op: Op, now: real): Outcome
    requires IsAlteration(op)
  {
    if Entitled(s, op) then
      var (changed, msg) := Requested(LobbyOf(s, op.initiator), op);
      Alter(s, op.initiator, changed, msg, now)
    else Nothing(s)
  }

  function Millis(seconds: real): nat {
    if seconds < 0.0 then 0 else (seconds * 1000.0).Floor
  }

  // Joining.

  function MetaMessages(m: Metadata, keys: seq<Text>): seq<ServerMessage>
    requires forall k :: k in keys ==> k in m
  {
    if keys == [] then []
    else MetaMessages(m, keys[..|keys| - 1]) + [SetLobbyMeta(keys[|keys| - 1], m[keys[|keys| - 1]])]
  }

  function JoinedMessages(players: map<BasicId, Player>, members: seq<BasicId>): seq<ServerMessage>
    requires forall p :: p in members ==> p in players
  {
    if members == [] then []
    else
      var p := members[|members| - 1];
      JoinedMessages(players, members[..|members| - 1]) + [Joined(p, players[p].metadata, players[p].birth)]
  }

  /** What a newcomer is told about the lobby it enters. */
  function Snapshot(s: State, lid: LobbyId, pid: BasicId, birth: nat, env: Env): seq<ServerMessage>
    requires lid in s.lobbies
    requires forall k :: k in env.keys ==> k in s.lobbies[lid].metadata
    requires forall p :: p in env.members ==> p in s.players
  {
    var lobby := s.lobbies[lid];
    [SetListed(lobby.listed), SetCapacity(lobby.capacity)]
    + MetaMessages(lobby.metadata, env.keys)
    + [Connected(pid, lid.lid, birth)]
    + JoinedMessages(s.players, env.members)
    + [SetMaster(lobby.master)]
  }

  ghost predicate OrdersOk(s: State, lid: LobbyId, env: Env) {
    && lid in s.lobbies
    && Enumerates(env.members, s.lobbies[lid].players)
    && Enumerates(env.keys, s.lobbies[lid].metadata.Keys)
    && forall p :: p in env.members ==> p in s.players
  }

  function Entered(lobby: Lobby, pid: BasicId): Lobby {
    var players := lobby.players + {pid};
    lobby.(players := players, idleSince := if |players| >= CHUD_THRESHOLD then None else lobby.idleSince)
  }

  /** Adding a player to an existing lobby. */
  ghost function Insert(s: State, lid: LobbyId, pid: BasicId, metadata: Metadata, env: Env): Outcome
    requires OrdersOk(s, lid, env)
  {
    var lobby := s.lobbies[lid];
    var birth := Millis(env.now - lobby.createdAt);
    var player := Player(lid, metadata, birth, FreshMetadata("player_metadata", env.now));
    Outcome(
      PutPlayer(PutLobby(s, lid, Entered(lobby, pid)), pid, player),
      Broadcast(lobby.players, [Joined(pid, metadata, birth)])[pid := Snapshot(s, lid, pid, birth, env)],
      Admitted(pid))
  }

  // Hosting.

  function LobbiesFrom(s: State, ip: Ip): set<LobbyId> {
    set l | l in s.lobbies && s.lobbies[l].initiator == ip
  }

  function ListedFrom(s: State, ip: Ip): set<LobbyId> {
    set l | l in s.lobbies && s.lobbies[l].initiator == ip && s.lobbies[l].listed
  }

  function ListedUnder(s: State, gid: GameId): set<LobbyId> {
    set l | l in s.lobbies && l.gid == gid && s.lobbies[l].listed
  }

  function NewLobby(op: Op, pid: BasicId, now: real): Lobby
    requires op.HostLobby?
  {
    Lobby({}, op.ip, pid, op.lobbyMetadata, op.capacity, op.listed, Some(now), now,
          Fresh("lobby_alterations", 1.0, 2.0, 2.0, now), FreshMetadata("lobby_metadata", now))
  }

  function Indexed(index: map<GameId, set<BasicId>>, lid: LobbyId): map<GameId, set<BasicId>> {
    index[lid.gid := (if lid.gid in index then index[lid.gid] else {}) + {lid.lid}]
  }

  function Unindexed(index: map<GameId, set<BasicId>>, lid: LobbyId): map<GameId, set<BasicId>> {
    if lid.gid !in index then index
    else
      var rest := index[lid.gid] - {lid.lid};
      if rest == {} then index - {lid.gid} else index[lid.gid := rest]
  }

  function Founded(s: State, op: Op, env: Env): State
    requires op.HostLobby?
  {
    var lid := LobbyId(op.gid, env.lid);
    PutLobby(s, lid, NewLobby(op, env.pid, env.now)).(gidLobbies := Indexed(s.gidLobbies, lid))
  }

  /** Why a request to host is turned down, if it is. */
  function HostDenial(s: State, op: Op, now: real): Option<Kick>
    requires op.HostLobby?
  {
    if !PassesCap(s, op.ip, now) then
      Some(Violation("rate_limited", "Sessions per IP cap"))
    else if (op.listed && ListedFrom(s, op.ip) != {}) || |LobbiesFrom(s, op.ip)| >= LOBBIES_PER_IP then
      Some(Violation("rate_limited", "Lobbies per IP limit"))
    else if op.listed && |ListedUnder(s, op.gid)| >= LISTED_LOBBIES_PER_GID then
      Some(Violation("rate_limited", "Lobbies per GID limit"))
    else None
  }

  ghost function Host(s: State, op: Op, env: Env): Outcome
    requires op.HostLobby? && EnvOk(s, op, env)
  {
    var s1 := ChargePeer(s, op.ip, env.now);
    var denial := HostDenial(s, op, env.now);
    if denial.Some? then Outcome(s1, map[], Denied(denial.value))
    else Insert(Founded(s1, op, env), LobbyId(op.gid, env.lid), env.pid, op.playerMetadata, env)
  }

  ghost function Join(s: State, op: Op, env: Env): Outcome
    requires op.JoinLobby? && EnvOk(s, op, env)
  {
    var s1 := ChargePeer(s, op.ip, env.now);
    var denial := JoinDenial(s, op, env.now);
    if denial.Some? then Outcome(s1, map[], Denied(denial.value))
    else Insert(s1, op.lid, env.pid, op.playerMetadata, env)
  }

  function JoinDenial(s: State, op: Op, now: real): Option<Kick>
    requires op.JoinLobby?
  {
    if !PassesCap(s, op.ip, now) then
      Some(Violation("rate_limited", "Sessions per IP cap"))
    else if op.lid !in s.lobbies then
      Some(Violation("lobby_not_found", "Lobby not found"))
    else if s.lobbies[op.lid].IsFull() then
      Some(Violation("lobby_full", "Lobby is full"))
    else None
  }

  // Listing.

  function Clamp(limit: nat): nat {
    if limit < 1 then 1 else if limit > LOBBY_LISTING_CAP then LOBBY_LISTING_CAP else limit
  }

  /** A full scan for the lobbies of a game that can be shown to and joined by anyone. */
  function Joinable(s: State, gid: GameId): set<LobbyId> {
    set l | l in s.lobbies && l.gid == gid && s.lobbies[l].listed && !s.lobbies[l].IsFull()
  }

  function ListingOf(s: State, lid: LobbyId): LobbyListing
    requires lid in s.lobbies
  {
    LobbyListing(lid.lid, |s.lobbies[lid].players|, s.lobbies[lid].capacity, Truncated(s.lobbies[lid].metadata))
  }

  /** Distinct joinable lobbies of the game, as many as there are up to the clamped limit. */
  ghost predicate IsListing(s: State, gid: GameId, limit: nat, list: seq<LobbyListing>) {
    && |list| == (if |Joinable(s, gid)| < Clamp(limit) then |Joinable(s, gid)| else Clamp(limit))
    && (forall i, j :: 0 <= i < j < |list| ==> list[i].lid != list[j].lid)
    && (forall i :: 0 <= i < |list| ==>
         LobbyId(gid, list[i].lid) in Joinable(s, gid) && list[i] == ListingOf(s, LobbyId(gid, list[i].lid)))
  }

  // Sessions of an address.

  ghost function TotalSessions(peers: map<Ip, Peer>): nat
    decreases |peers|
  {
    if peers == map[] then 0
    else
      var ip :| ip in peers;
      peers[ip].Count() + TotalSessions(peers - {ip})
  }

  ghost predicate Grants(s: State, ip: Ip) {
    && TotalSessions(s.peers) < GLOBAL_SESSIONS_CAP
    && (if ip in s.peers then s.peers[ip].Count() < SESSIONS_PER_IP_CAP else |s.peers| < GLOBAL_PEERS_CAP)
  }

  ghost function Introduce(s: State, ip: Ip, now: real): Outcome {
    if !Grants(s, ip) then Outcome(s, map[], Granted(false))
    else
      var peer := if ip in s.peers then s.peers[ip].(sessions := Active(s.peers[ip].Count() + 1)) else NewPeer(now);
      Outcome(s.(peers := s.peers[ip := peer]), map[], Granted(true))
  }

  function Close(s: State, ip: Ip, now: real): State {
    if ip in s.peers && s.peers[ip].sessions.Active? then
      var c := s.peers[ip].sessions.count;
      s.(peers := s.peers[ip := s.peers[ip].(sessions := if c <= 1 then Decaying(now) else Active(c - 1))])
    else s
  }

  // Pruning.

  predicate Expired(peer: Peer, now: real) {
    peer.sessions.Decaying? && now - peer.sessions.since >= SESSION_IDLE_TIMEOUT
  }

  function ExpiredPeers(peers: map<Ip, Peer>, now: real): set<Ip> {
    set ip | ip in peers && Expired(peers[ip], now)
  }

  predicate Inactive(lobby: Lobby, now: real) {
    lobby.idleSince.Some? && now - lobby.idleSince.value >= CHUD_LOBBY_TIMEOUT
  }

  const INACTIVE_LOBBY := Natural("inactive_lobby", "Inactive lobby")
  const KICKED := Natural("kick", "Kicked by lobby's master")

  function InactivePlayers(s: State, now: real): set<BasicId> {
    set p | p in s.players && s.players[p].lid in s.lobbies && Inactive(s.lobbies[s.players[p].lid], now)
  }

  function PruneOutcome(s: State, now: real): Outcome {
    Outcome(
      s.(peers := s.peers - ExpiredPeers(s.peers, now)),
      Broadcast(InactivePlayers(s, now), [Disconnected(INACTIVE_LOBBY)]),
      NoReply)
  }

  // Leaving.

  function Departed(lobby: Lobby, pid: BasicId, heir: BasicId, now: real): Lobby {
    var rest := lobby.players - {pid};
    lobby.(
      players := rest,
      idleSince := if |rest| < CHUD_THRESHOLD && lobby.idleSince.None? then Some(now) else lobby.idleSince,
      master := if pid != lobby.master then lobby.master else if rest == {} then NULL else heir)
  }

  function Remove(s: State, pid: BasicId, reason: Kick, heir: BasicId, now: real): Outcome {
    if pid !in s.players then Nothing(s)
    else
      var lid := s.players[pid].lid;
      var s1 := s.(players := s.players - {pid});
      var bye := map[pid := [Disconnected(reason)]];
      if lid !in s.lobbies then Outcome(s1, bye, NoReply)
      else
        var lobby := Departed(s.lobbies[lid], pid, heir, now);
        if lobby.master == NULL then
          Outcome(s1.(lobbies := s.lobbies - {lid}, gidLobbies := Unindexed(s.gidLobbies, lid)), bye, NoReply)
        else
          Outcome(PutLobby(s1, lid, lobby),
                  Broadcast(lobby.players, [Left(pid, reason), SetMaster(lobby.master)]) + bye,
                  NoReply)
  }

  // Metadata.

  /** Who a message to a lobby goes to. */
  function Members(s: State, lid: LobbyId): set<BasicId> {
    if lid in s.lobbies then s.lobbies[lid].players else {}
  }

  function SetPlayerField(s: State, pid: BasicId, key: Text, value: Text, now: real): Outcome {
    if pid in s.players && CanAdd(s.players[pid].metadata, key) then
      var player := s.players[pid];
      var size := |key| + |value|;
      var charged := player.(metadataBudget := Taken(player.metadataBudget, now, size));
      if Allows(player.metadataBudget, now, size) then
        Outcome(PutPlayer(s, pid, charged.(metadata := player.metadata[key := value])),
                Broadcast(Members(s, player.lid), [SetPlayerMeta(pid, key, value)]), NoReply)
      else
        Outcome(PutPlayer(s, pid, charged), Boot(pid, player.metadataBudget), NoReply)
    else Nothing(s)
  }

  function ErasePlayerField(s: State, pid: BasicId, key: Text): Outcome {
    if pid in s.players && key in s.players[pid].metadata then
      var player := s.players[pid];
      Outcome(PutPlayer(s, pid, player.(metadata := player.metadata - {key})),
              Broadcast(Members(s, player.lid), [ErasePlayerMeta(pid, key)]), NoReply)
    else Nothing(s)
  }

  function SetLobbyField(s: State, initiator: BasicId, key: Text, value: Text, now: real): Outcome {
    if IsMaster(s, initiator) && CanAdd(LobbyOf(s, initiator).metadata, key) then
      var lobby := LobbyOf(s, initiator);
      var lid := s.players[initiator].lid;
      var size := |key| + |value|;
      var charged := lobby.(metadataBudget := Taken(lobby.metadataBudget, now, size));
      if Allows(lobby.metadataBudget, now, size) then
        Outcome(PutLobby(s, lid, charged.(metadata := lobby.metadata[key := value])),
                Broadcast(lobby.players, [SetLobbyMeta(key, value)]), NoReply)
      else
        Outcome(PutLobby(s, lid, charged), Boot(initiator, lobby.metadataBudget), NoReply)
    else Nothing(s)
  }

  function EraseLobbyField(s: State, initiator: BasicId, key: Text): Outcome {
    if IsMaster(s, initiator) && key in LobbyOf(s, initiator).metadata then
      var lobby := LobbyOf(s, initiator);
      Outcome(PutLobby(s, s.players[initiator].lid, lobby.(metadata := lobby.metadata - {key})),
              Broadcast(lobby.players, [EraseLobbyMeta(key)]), NoReply)
    else Nothing(s)
  }

  // One operation.

  /** The choices in `env` are ones the operation can make: new ids, and true iteration orders. */
  ghost predicate EnvOk(s: State, op: Op, env: Env) {
    match op
    case ListLobbies(ip, gid, limit) =>
      PassesCap(s, ip, env.now) ==> IsListing(ChargePeer(s, ip, env.now), gid, limit, env.listing)
    case HostLobby(ip, gid, lobbyMetadata, _, _, _) =>
      && env.pid != NULL && env.pid !in s.players
      && LobbyId(gid, env.lid) !in s.lobbies
      && env.members == [] && Enumerates(env.keys, lobbyMetadata.Keys)
    case JoinLobby(ip, lid, _) =>
      && env.pid != NULL && env.pid !in s.players
      && (lid in s.lobbies ==> OrdersOk(s, lid, env))
    case RemovePlayer(pid, _) =>
      pid in s.players && s.players[pid].lid in s.lobbies && s.lobbies[s.players[pid].lid].players != {pid}
      ==> env.heir in s.lobbies[s.players[pid].lid].players - {pid}
    case _ => true
  }

  ghost function Step(s: State, op: Op, env: Env): Outcome
    requires EnvOk(s, op, env)
  {
    match op
    case AssemblePong(pid) =>
      Outcome(s, map[], Ponged(
        if pid in s.players && s.players[pid].lid in s.lobbies then LobbyOf(s, pid).players else {}))
    case SetCapacityOp(_, _) => Alteration(s, op, env.now)
    case SetListedOp(_, _) => Alteration(s, op, env.now)
    case SetMasterOp(_, _) => Alteration(s, op, env.now)
    case SetPlayerMetaOp(pid, key, value) => SetPlayerField(s, pid, key, value, env.now)
    case ErasePlayerMetaOp(pid, key) => ErasePlayerField(s, pid, key)
    case SetLobbyMetaOp(initiator, key, value) => SetLobbyField(s, initiator, key, value, env.now)
    case EraseLobbyMetaOp(initiator, key) => EraseLobbyField(s, initiator, key)
    case Relay(from, to, signal) =>
      if from in s.players && to in s.players && s.players[from].lid == s.players[to].lid
      then Outcome(s, map[to := [Relayed(from, signal)]], NoReply)
      else Nothing(s)
    case ListLobbies(ip, gid, limit) =>
      Outcome(ChargePeer(s, ip, env.now), map[],
        if PassesCap(s, ip, env.now) then Listed(env.listing)
        else Denied(Violation("rate_limited", "Sessions per IP cap")))
    case HostLobby(_, _, _, _, _, _) => Host(s, op, env)
    case JoinLobby(_, _, _) => Join(s, op, env)
    case KickPlayer(kicker, kickee) =>
      if IsMaster(s, kicker) && kickee in s.players && s.players[kickee].lid == s.players[kicker].lid
      then Outcome(s, map[kickee := [Disconnected(KICKED)]], NoReply)
      else Nothing(s)
    case RemovePlayer(pid, reason) => Remove(s, pid, reason, env.heir, env.now)
    case IntroduceSession(ip) => Introduce(s, ip, env.now)
    case Prune => PruneOutcome(s, env.now)
    case CloseSession(ip) => Outcome(Close(s, ip, env.now), map[], NoReply)
  }
}
