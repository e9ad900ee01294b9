/**
 * The client's replica of its lobby: how each message changes it, what it should agree with on the server,
 * and why a pong that overtakes queued messages does no harm.
 */
module Replica {
  import opened Basics
  import opened Tokens
  import opened Server
  import opened ServerInvariants

  datatype Remote = Remote(metadata: Metadata, birth: nat)

  /** What a client holds about itself, its lobby and the other players in it. */
  datatype Shadow = Shadow(
    self: BasicId,
    lid: BasicId,
    birth: nat,
    listed: bool,
    capacity: nat,
    lobbyMeta: Metadata,
    master: BasicId,
    others: map<BasicId, Remote>)

  /** One message from the server, as the client's handlers take it. */
  function Apply(r: Shadow, m: ServerMessage): Shadow {
    match m
    case Connected(pid, lid, birth) => r.(self := pid, lid := lid, birth := birth)
    case SetListed(listed) => r.(listed := listed)
    case SetCapacity(capacity) => r.(capacity := capacity)
    case SetPlayerMeta(pid, key, value) =>
      if pid in r.others && pid != r.self then
        r.(others := r.others[pid := r.others[pid].(metadata := r.others[pid].metadata[key := value])])
      else r
    case ErasePlayerMeta(pid, key) =>
      if pid in r.others && pid != r.self then
        r.(others := r.others[pid := r.others[pid].(metadata := r.others[pid].metadata - {key})])
      else r
    case SetLobbyMeta(key, value) => r.(lobbyMeta := r.lobbyMeta[key := value])
    case EraseLobbyMeta(key) => r.(lobbyMeta := r.lobbyMeta - {key})
    case SetMaster(pid) => r.(master := pid)
    case Joined(pid, metadata, birth) =>
      if pid in r.others then r else r.(others := r.others[pid := Remote(metadata, birth)])
    case Left(pid, _) => r.(others := r.others - {pid})
    case Pong(players) => r.(others := r.others - (r.others.Keys - players))
    case Disconnected(_) => r
    case Relayed(_, _) => r
    case List(_) => r
  }

  /** A sequence of messages, oldest first. */
  function Fold(r: Shadow, msgs: seq<ServerMessage>): Shadow
    decreases |msgs|
  {
    if msgs == [] then r else Fold(Apply(r, msgs[0]), msgs[1..])
  }

  lemma {:induction false} FoldConcat(r: Shadow, a: seq<ServerMessage>, b: seq<ServerMessage>)
    ensures Fold(r, a + b) == Fold(Fold(r, a), b)
    decreases |a|
  {
    if a == [] {
      assert a + b == b;
    } else {
      FoldConcat(Apply(r, a[0]), a[1..], b);
      assert (a + b)[0] == a[0] && (a + b)[1..] == a[1..] + b;
    }
  }

  lemma FoldOne(r: Shadow, m: ServerMessage)
    ensures Fold(r, [m]) == Apply(r, m)
  {
    assert [m][1..] == [];
  }

  lemma FoldTwo(r: Shadow, m: ServerMessage, n: ServerMessage)
    ensures Fold(r, [m, n]) == Apply(Apply(r, m), n)
  {
    assert [m, n] == [m] + [n];
    FoldConcat(r, [m], [n]);
    FoldOne(r, m);
    FoldOne(Apply(r, m), n);
  }

  // A pong that overtakes the queue.

  /** `a` holds no one that `b` does not, and they differ at most about the players in `gone`. */
  ghost predicate Trimmed(a: Shadow, b: Shadow, gone: set<BasicId>) {
    && a.(others := b.others) == b
    && a.others.Keys <= b.others.Keys
    && forall p :: p in b.others && p !in gone ==> p in a.others && a.others[p] == b.others[p]
  }

  lemma TrimmedApply(a: Shadow, b: Shadow, gone: set<BasicId>, m: ServerMessage)
    requires Trimmed(a, b, gone)
    ensures Trimmed(Apply(a, m), Apply(b, m), gone)
  {
  }

  lemma {:induction false} TrimmedFold(a: Shadow, b: Shadow, gone: set<BasicId>, msgs: seq<ServerMessage>)
    requires Trimmed(a, b, gone)
    ensures Trimmed(Fold(a, msgs), Fold(b, msgs), gone)
    decreases |msgs|
  {
    if msgs != [] {
      TrimmedApply(a, b, gone, msgs[0]);
      TrimmedFold(Apply(a, msgs[0]), Apply(b, msgs[0]), gone, msgs[1..]);
    }
  }

  /** The pong itself only trims, and only players it does not list. */
  lemma PongTrims(r: Shadow, players: set<BasicId>)
    ensures Trimmed(Apply(r, Pong(players)), r, r.others.Keys - players)
  {
  }

  /**
   * Overtaking is harmless: a pong sent ahead of `queue` changes nothing in the end, as long as the queue
   * leaves no one behind whom the pong does not list.
   */
  lemma OvertakingPongIsAbsorbed(r: Shadow, players: set<BasicId>, queue: seq<ServerMessage>)
    requires Fold(r, queue).others.Keys <= players
    ensures Fold(r, [Pong(players)] + queue) == Fold(r, queue)
  {
    var gone := r.others.Keys - players;
    PongTrims(r, players);
    var a := Apply(r, Pong(players));
    TrimmedFold(a, r, gone, queue);
    FoldConcat(r, [Pong(players)], queue);
    FoldOne(r, Pong(players));
    assert Fold(a, queue).others == Fold(r, queue).others;
  }

  // The server's side of the agreement.

  predicate Seated(s: State, pid: BasicId) {
    pid in s.players && s.players[pid].lid in s.lobbies
  }

  /** What the server knows and the client of `pid` should hold. */
  function View(s: State, pid: BasicId): Shadow
    requires Seated(s, pid)
  {
    var lobby := LobbyOf(s, pid);
    Shadow(pid, s.players[pid].lid.lid, s.players[pid].birth, lobby.listed, lobby.capacity, lobby.metadata,
           lobby.master, Companions(s, lobby.players - {pid}))
  }

  const NOBODY := Remote(map[], 0)

  function Companions(s: State, members: set<BasicId>): map<BasicId, Remote> {
    map q | q in members && q in s.players :: if q in members && q in s.players then RemoteOf(s.players[q]) else NOBODY
  }

  /** A newcomer's client: it knows no other players; what is left of earlier lobby metadata may differ. */
  ghost predicate Newcomer(r: Shadow) {
    r.others == map[]
  }

  // The snapshot sent to a newcomer.

  function Picked(m: Metadata, keys: seq<Text>): Metadata {
    m - (m.Keys - (set k | k in keys))
  }

  lemma {:induction false} FoldMeta(r: Shadow, m: Metadata, keys: seq<Text>)
    requires forall k :: k in keys ==> k in m
    ensures Fold(r, MetaMessages(m, keys)) == r.(lobbyMeta := r.lobbyMeta + Picked(m, keys))
  {
    if keys == [] {
      assert Picked(m, keys) == map[];
      assert r.lobbyMeta + map[] == r.lobbyMeta;
    } else {
      var init, last := keys[..|keys| - 1], keys[|keys| - 1];
      FoldMeta(r, m, init);
      FoldConcat(r, MetaMessages(m, init), [SetLobbyMeta(last, m[last])]);
      FoldOne(Fold(r, MetaMessages(m, init)), SetLobbyMeta(last, m[last]));
      assert keys == init + [last];
      assert (r.lobbyMeta + Picked(m, init))[last := m[last]] == r.lobbyMeta + Picked(m, keys);
    }
  }

  function RemoteOf(p: Player): Remote {
    Remote(p.metadata, p.birth)
  }

  function Sketches(players: map<BasicId, Player>, members: seq<BasicId>): map<BasicId, Remote>
    requires forall p :: p in members ==> p in players
  {
    map p | p in members :: if p in members then RemoteOf(players[p]) else NOBODY
  }

  lemma {:induction false} FoldJoined(r: Shadow, players: map<BasicId, Player>, members: seq<BasicId>)
    requires r.others == map[]
    requires forall p :: p in members ==> p in players
    ensures Fold(r, JoinedMessages(players, members)) == r.(others := Sketches(players, members))
  {
    if members == [] {
      assert |members| == 0;
    } else {
      var init, last := members[..|members| - 1], members[|members| - 1];
      FoldJoined(r, players, init);
      var m := Joined(last, players[last].metadata, players[last].birth);
      FoldConcat(r, JoinedMessages(players, init), [m]);
      FoldOne(Fold(r, JoinedMessages(players, init)), m);
      assert members == init + [last];
      var before, after := Sketches(players, init), Sketches(players, members);
      assert after == if last in before then before else before[last := RemoteOf(players[last])];
    }
  }

  /** The settings and lobby fields that open a snapshot. */
  lemma FoldOpening(r: Shadow, listed: bool, capacity: nat, m: Metadata, keys: seq<Text>)
    requires Enumerates(keys, m.Keys)
    ensures Fold(r, [SetListed(listed), SetCapacity(capacity)] + MetaMessages(m, keys))
      == r.(listed := listed, capacity := capacity, lobbyMeta := r.lobbyMeta + m)
  {
    FoldTwo(r, SetListed(listed), SetCapacity(capacity));
    var r1 := r.(listed := listed, capacity := capacity);
    FoldConcat(r, [SetListed(listed), SetCapacity(capacity)], MetaMessages(m, keys));
    FoldMeta(r1, m, keys);
    assert Picked(m, keys) == m;
  }

  /** The introductions and the master that close it. */
  lemma FoldClosing(r: Shadow, players: map<BasicId, Player>, members: seq<BasicId>, master: BasicId)
    requires r.others == map[] && forall p :: p in members ==> p in players
    ensures Fold(r, JoinedMessages(players, members) + [SetMaster(master)])
      == r.(others := Sketches(players, members), master := master)
  {
    FoldJoined(r, players, members);
    FoldConcat(r, JoinedMessages(players, members), [SetMaster(master)]);
    FoldOne(Fold(r, JoinedMessages(players, members)), SetMaster(master));
  }

  /** What any client holds after the snapshot, whatever it held before. */
  lemma FoldSnapshot(r: Shadow, s: State, lid: LobbyId, pid: BasicId, birth: nat, env: Env)
    requires OrdersOk(s, lid, env) && Newcomer(r)
    ensures var lobby := s.lobbies[lid];
      Fold(r, Snapshot(s, lid, pid, birth, env))
      == Shadow(pid, lid.lid, birth, lobby.listed, lobby.capacity, r.lobbyMeta + lobby.metadata, lobby.master,
           Companions(s, lobby.players))
  {
    var lobby := s.lobbies[lid];
    var opening := [SetListed(lobby.listed), SetCapacity(lobby.capacity)] + MetaMessages(lobby.metadata, env.keys);
    var greeting := [Connected(pid, lid.lid, birth)];
    var closing := JoinedMessages(s.players, env.members) + [SetMaster(lobby.master)];
    assert Snapshot(s, lid, pid, birth, env) == (opening + greeting) + closing;
    FoldOpening(r, lobby.listed, lobby.capacity, lobby.metadata, env.keys);
    FoldConcat(r, opening, greeting);
    FoldOne(Fold(r, opening), greeting[0]);
    FoldConcat(r, opening + greeting, closing);
    FoldClosing(Fold(r, opening + greeting), s.players, env.members, lobby.master);
    assert Sketches(s.players, env.members) == Companions(s, lobby.players);
  }

  lemma MergedKeys(before: Metadata, after: Metadata)
    ensures before + after == after <==> before.Keys <= after.Keys
  {
    assert (before + after).Keys == before.Keys + after.Keys;
    if before.Keys <= after.Keys {
      assert before + after == after;
    }
  }

  // Agreement of each member's replica, operation by operation.

  ghost predicate Agrees(s: State, t: State, out: Outbox, p: BasicId)
    requires Seated(s, p) && Seated(t, p)
  {
    Fold(View(s, p), SentTo(out, p)) == View(t, p)
  }

  /** What the clients of a lobby can see of it. */
  ghost predicate LooksAlike(a: Lobby, b: Lobby) {
    a.players == b.players && a.listed == b.listed && a.capacity == b.capacity && a.metadata == b.metadata
    && a.master == b.master
  }

  /** Players other than `pid` are as they were. */
  ghost predicate OthersSame(s: State, t: State, pid: BasicId) {
    forall q :: q != pid ==> (q in s.players <==> q in t.players) && (q in s.players ==> t.players[q] == s.players[q])
  }

  ghost predicate OtherLobbiesSame(s: State, t: State, lid: LobbyId) {
    forall l :: l != lid ==> (l in s.lobbies <==> l in t.lobbies) && (l in s.lobbies ==> t.lobbies[l] == s.lobbies[l])
  }

  /** Another lobby's member has nothing to be told when one player and its lobby change. */
  lemma ElsewhereSame(s: State, t: State, pid: BasicId, lid: LobbyId, p: BasicId)
    requires Linked(s) && Seated(s, p) && s.players[p].lid != lid && p != pid
    requires pid in s.players ==> s.players[pid].lid == lid
    requires OthersSame(s, t, pid) && OtherLobbiesSame(s, t, lid)
    ensures Seated(t, p) && View(t, p) == View(s, p)
  {
    assert pid !in LobbyOf(s, p).players;
    assert Companions(t, LobbyOf(s, p).players - {p}) == Companions(s, LobbyOf(s, p).players - {p});
  }

  lemma ElsewhereAgrees(s: State, t: State, out: Outbox, pid: BasicId, lid: LobbyId, p: BasicId)
    requires Linked(s) && Seated(s, p) && s.players[p].lid != lid && p != pid && p !in out
    requires pid in s.players ==> s.players[pid].lid == lid
    requires OthersSame(s, t, pid) && OtherLobbiesSame(s, t, lid)
    ensures Seated(t, p) && Agrees(s, t, out, p)
  {
    ElsewhereSame(s, t, pid, lid, p);
  }

  /** A lobby changes in what is not its roster: every member is told exactly that. */
  lemma PutLobbyAgrees(s: State, t: State, out: Outbox, p: BasicId, msg: ServerMessage)
    requires Seated(s, p) && t.players == s.players && s.players[p].lid in t.lobbies
    requires LobbyOf(t, p).players == LobbyOf(s, p).players
    requires p in out && out[p] == [msg]
    requires Apply(View(s, p), msg) == View(s, p).(
        listed := LobbyOf(t, p).listed, capacity := LobbyOf(t, p).capacity,
        lobbyMeta := LobbyOf(t, p).metadata, master := LobbyOf(t, p).master)
    ensures Seated(t, p) && Agrees(s, t, out, p)
  {
    FoldOne(View(s, p), msg);
    assert Companions(t, LobbyOf(s, p).players - {p}) == Companions(s, LobbyOf(s, p).players - {p});
  }

  /** Only budgets change, and whoever hears of it hears nothing about the lobby. */
  lemma BudgetsAgree(s: State, t: State, out: Outbox, p: BasicId)
    requires Seated(s, p) && t.players == s.players && s.players[p].lid in t.lobbies
    requires LooksAlike(LobbyOf(s, p), LobbyOf(t, p))
    requires p in out ==> |out[p]| == 1 && Silent(out[p][0])
    ensures Seated(t, p) && Agrees(s, t, out, p)
  {
    if p in out {
      FoldOne(View(s, p), out[p][0]);
      assert out[p] == [out[p][0]];
    }
    assert Companions(t, LobbyOf(s, p).players - {p}) == Companions(s, LobbyOf(s, p).players - {p});
  }

  /** Messages that say nothing about the lobby. */
  predicate Silent(m: ServerMessage) {
    m.Disconnected? || m.Relayed? || m.List?
  }

  lemma AlterationAgrees(s: State, op: Op, now: real, p: BasicId)
    requires Linked(s) && IsAlteration(op) && p in s.players
    ensures var o := Alteration(s, op, now); Seated(o.state, p) && Agrees(s, o.state, o.out, p)
  {
    if Entitled(s, op) {
      AlterAgrees(s, op, now, p);
    } else {
      assert Alteration(s, op, now) == Nothing(s);
    }
  }

  lemma AlterAgrees(s: State, op: Op, now: real, p: BasicId)
    requires Linked(s) && IsAlteration(op) && p in s.players && Entitled(s, op)
    ensures var o := Alteration(s, op, now); Seated(o.state, p) && Agrees(s, o.state, o.out, p)
  {
    var o := Alteration(s, op, now);
    var lid, lobby := s.players[op.initiator].lid, LobbyOf(s, op.initiator);
    var (changed, msg) := Requested(lobby, op);
    assert o == Alter(s, op.initiator, changed, msg, now);
    if s.players[p].lid != lid {
      ElsewhereAgrees(s, o.state, o.out, op.initiator, lid, p);
    } else if Allows(lobby.alterations, now, 1) {
      assert p in lobby.players && o.out[p] == [msg];
      PutLobbyAgrees(s, o.state, o.out, p, msg);
    } else {
      BudgetsAgree(s, o.state, o.out, p);
    }
  }

  lemma LobbyFieldSetAgrees(s: State, initiator: BasicId, key: Text, value: Text, now: real, p: BasicId)
    requires Linked(s) && p in s.players
    ensures var o := SetLobbyField(s, initiator, key, value, now); Seated(o.state, p) && Agrees(s, o.state, o.out, p)
  {
    var o := SetLobbyField(s, initiator, key, value, now);
    if !IsMaster(s, initiator) || !CanAdd(LobbyOf(s, initiator).metadata, key) {
      assert o == Nothing(s);
    } else {
      var lid, lobby := s.players[initiator].lid, LobbyOf(s, initiator);
      if s.players[p].lid != lid {
        ElsewhereAgrees(s, o.state, o.out, initiator, lid, p);
      } else if Allows(lobby.metadataBudget, now, |key| + |value|) {
        assert p in lobby.players && o.out[p] == [SetLobbyMeta(key, value)];
        PutLobbyAgrees(s, o.state, o.out, p, SetLobbyMeta(key, value));
      } else {
        BudgetsAgree(s, o.state, o.out, p);
      }
    }
  }

  lemma LobbyFieldErasedAgrees(s: State, initiator: BasicId, key: Text, p: BasicId)
    requires Linked(s) && p in s.players
    ensures var o := EraseLobbyField(s, initiator, key); Seated(o.state, p) && Agrees(s, o.state, o.out, p)
  {
    var o := EraseLobbyField(s, initiator, key);
    if !IsMaster(s, initiator) || key !in LobbyOf(s, initiator).metadata {
      assert o == Nothing(s);
    } else {
      var lid, lobby := s.players[initiator].lid, LobbyOf(s, initiator);
      if s.players[p].lid != lid {
        ElsewhereAgrees(s, o.state, o.out, initiator, lid, p);
      } else {
        assert p in lobby.players && o.out[p] == [EraseLobbyMeta(key)];
        PutLobbyAgrees(s, o.state, o.out, p, EraseLobbyMeta(key));
      }
    }
  }

  /** A player's own entry changes: fellow members are told, and the player's own replica does not hold it. */
  lemma PutPlayerAgrees(s: State, t: State, pid: BasicId, out: Outbox, p: BasicId, msg: ServerMessage)
    requires pid in s.players && Seated(s, p) && p != pid && pid in LobbyOf(s, p).players
    requires pid in t.players && t.lobbies == s.lobbies && t.players == s.players[pid := t.players[pid]]
    requires p in out && out[p] == [msg]
    requires Apply(View(s, p), msg)
      == View(s, p).(others := View(s, p).others[pid := RemoteOf(t.players[pid])])
    ensures Seated(t, p) && Agrees(s, t, out, p)
  {
    FoldOne(View(s, p), msg);
    var members := LobbyOf(s, p).players - {p};
    assert Companions(t, members) == Companions(s, members)[pid := RemoteOf(t.players[pid])];
  }

  lemma OwnFieldAgrees(s: State, t: State, out: Outbox, p: BasicId, msg: ServerMessage)
    requires Seated(s, p) && p in t.players && t.lobbies == s.lobbies && t.players == s.players[p := t.players[p]]
    requires t.players[p].lid == s.players[p].lid && t.players[p].birth == s.players[p].birth
    requires p in out && out[p] == [msg] && Apply(View(s, p), msg) == View(s, p)
    ensures Seated(t, p) && Agrees(s, t, out, p)
  {
    FoldOne(View(s, p), msg);
    var members := LobbyOf(s, p).players - {p};
    assert Companions(t, members) == Companions(s, members);
  }

  lemma PlayerBudgetAgrees(s: State, t: State, pid: BasicId, out: Outbox, p: BasicId)
    requires pid in s.players && Seated(s, p)
    requires pid in t.players && t.lobbies == s.lobbies && t.players == s.players[pid := t.players[pid]]
    requires t.players[pid].lid == s.players[pid].lid && RemoteOf(t.players[pid]) == RemoteOf(s.players[pid])
    requires p in out ==> |out[p]| == 1 && Silent(out[p][0])
    ensures Seated(t, p) && Agrees(s, t, out, p)
  {
    if p in out {
      FoldOne(View(s, p), out[p][0]);
      assert out[p] == [out[p][0]];
    }
    assert Companions(t, LobbyOf(s, p).players - {p}) == Companions(s, LobbyOf(s, p).players - {p});
  }

  lemma FieldSetAgrees(s: State, pid: BasicId, key: Text, value: Text, now: real, p: BasicId)
    requires Linked(s) && p in s.players
    ensures var o := SetPlayerField(s, pid, key, value, now); Seated(o.state, p) && Agrees(s, o.state, o.out, p)
  {
    var o := SetPlayerField(s, pid, key, value, now);
    if pid !in s.players || !CanAdd(s.players[pid].metadata, key) {
      assert o == Nothing(s);
    } else {
      var player := s.players[pid];
      if s.players[p].lid != player.lid {
        ElsewhereAgrees(s, o.state, o.out, pid, player.lid, p);
      } else if Allows(player.metadataBudget, now, |key| + |value|) {
        assert p in LobbyOf(s, pid).players && o.out[p] == [SetPlayerMeta(pid, key, value)];
        assert pid in LobbyOf(s, p).players;
        if p == pid {
          OwnFieldAgrees(s, o.state, o.out, p, SetPlayerMeta(pid, key, value));
        } else {
          PutPlayerAgrees(s, o.state, pid, o.out, p, SetPlayerMeta(pid, key, value));
        }
      } else {
        PlayerBudgetAgrees(s, o.state, pid, o.out, p);
      }
    }
  }

  lemma FieldErasedAgrees(s: State, pid: BasicId, key: Text, p: BasicId)
    requires Linked(s) && p in s.players
    ensures var o := ErasePlayerField(s, pid, key); Seated(o.state, p) && Agrees(s, o.state, o.out, p)
  {
    var o := ErasePlayerField(s, pid, key);
    if pid !in s.players || key !in s.players[pid].metadata {
      assert o == Nothing(s);
    } else {
      var player := s.players[pid];
      if s.players[p].lid != player.lid {
        ElsewhereAgrees(s, o.state, o.out, pid, player.lid, p);
      } else {
        assert p in LobbyOf(s, pid).players && o.out[p] == [ErasePlayerMeta(pid, key)];
        assert pid in LobbyOf(s, p).players;
        if p == pid {
          OwnFieldAgrees(s, o.state, o.out, p, ErasePlayerMeta(pid, key));
        } else {
          PutPlayerAgrees(s, o.state, pid, o.out, p, ErasePlayerMeta(pid, key));
        }
      }
    }
  }

  lemma InsertAgrees(s: State, lid: LobbyId, pid: BasicId, metadata: Metadata, env: Env, p: BasicId)
    requires Linked(s) && OrdersOk(s, lid, env) && pid !in s.players && p in s.players
    ensures var o := Insert(s, lid, pid, metadata, env); Seated(o.state, p) && Agrees(s, o.state, o.out, p)
  {
    var o := Insert(s, lid, pid, metadata, env);
    if s.players[p].lid != lid {
      ElsewhereAgrees(s, o.state, o.out, pid, lid, p);
    } else {
      assert p in s.lobbies[lid].players;
      MeetingAgrees(s, o.state, pid, o.out, p);
    }
  }

  /** A newcomer is introduced to a member. */
  lemma MeetingAgrees(s: State, t: State, pid: BasicId, out: Outbox, p: BasicId)
    requires Seated(s, p) && pid !in s.players && pid in t.players && t.players == s.players[pid := t.players[pid]]
    requires t.lobbies == s.lobbies[s.players[p].lid := Entered(LobbyOf(s, p), pid)]
    requires SentTo(out, p) == [Joined(pid, t.players[pid].metadata, t.players[pid].birth)]
    ensures Seated(t, p) && Agrees(s, t, out, p)
  {
    var m := Joined(pid, t.players[pid].metadata, t.players[pid].birth);
    FoldOne(View(s, p), m);
    assert Companions(t, LobbyOf(s, p).players + {pid} - {p})
      == Companions(s, LobbyOf(s, p).players - {p})[pid := RemoteOf(t.players[pid])];
  }

  /** The view of a newcomer differs from what its client makes of the snapshot in left-over lobby fields only. */
  lemma SnapshotView(r: Shadow, s: State, lid: LobbyId, pid: BasicId, metadata: Metadata, env: Env)
    requires OrdersOk(s, lid, env) && pid !in s.players && Newcomer(r)
    requires forall p :: p in s.lobbies[lid].players ==> p in s.players
    ensures var o := Insert(s, lid, pid, metadata, env);
      && Seated(o.state, pid) && o.state.players[pid].lid == lid
      && Fold(r, SentTo(o.out, pid)) == View(o.state, pid).(lobbyMeta := r.lobbyMeta + s.lobbies[lid].metadata)
      && View(o.state, pid).lobbyMeta == s.lobbies[lid].metadata
  {
    var o := Insert(s, lid, pid, metadata, env);
    var birth := Millis(env.now - s.lobbies[lid].createdAt);
    assert SentTo(o.out, pid) == Snapshot(s, lid, pid, birth, env);
    FoldSnapshot(r, s, lid, pid, birth, env);
    NewcomerView(s, lid, pid, metadata, birth, env);
  }

  lemma NewcomerView(s: State, lid: LobbyId, pid: BasicId, metadata: Metadata, birth: nat, env: Env)
    requires OrdersOk(s, lid, env) && pid !in s.players && birth == Millis(env.now - s.lobbies[lid].createdAt)
    requires forall p :: p in s.lobbies[lid].players ==> p in s.players
    ensures var t, lobby := Insert(s, lid, pid, metadata, env).state, s.lobbies[lid];
      && Seated(t, pid) && t.players[pid].lid == lid
      && View(t, pid) == Shadow(pid, lid.lid, birth, lobby.listed, lobby.capacity, lobby.metadata, lobby.master,
           Companions(s, lobby.players))
  {
    var t, lobby := Insert(s, lid, pid, metadata, env).state, s.lobbies[lid];
    assert t.lobbies[lid] == Entered(lobby, pid);
    assert LobbyOf(t, pid).players - {pid} == lobby.players;
    assert Companions(t, lobby.players) == Companions(s, lobby.players);
  }

  /**
   * A newcomer's replica after the snapshot agrees with the server exactly when no lobby field left over from
   * an earlier session is missing from the lobby: nothing tells the client to erase such a field.
   */
  lemma SnapshotAgrees(r: Shadow, s: State, lid: LobbyId, pid: BasicId, metadata: Metadata, env: Env)
    requires OrdersOk(s, lid, env) && pid !in s.players && Newcomer(r)
    requires forall p :: p in s.lobbies[lid].players ==> p in s.players
    ensures var o := Insert(s, lid, pid, metadata, env);
      && Seated(o.state, pid)
      && (Fold(r, SentTo(o.out, pid)) == View(o.state, pid) <==> r.lobbyMeta.Keys <= s.lobbies[lid].metadata.Keys)
  {
    SnapshotView(r, s, lid, pid, metadata, env);
    MergedKeys(r.lobbyMeta, s.lobbies[lid].metadata);
  }

  lemma LeavingAgrees(s: State, pid: BasicId, reason: Kick, env: Env, p: BasicId)
    requires Linked(s) && EnvOk(s, RemovePlayer(pid, reason), env) && p in s.players && p != pid
    ensures var o := Remove(s, pid, reason, env.heir, env.now); Seated(o.state, p) && Agrees(s, o.state, o.out, p)
  {
    var o := Remove(s, pid, reason, env.heir, env.now);
    if pid !in s.players {
      assert o == Nothing(s);
    } else {
      MasterGoneIffEmpty(s, pid, env.heir, env.now);
      var lid := s.players[pid].lid;
      var lobby := Departed(LobbyOf(s, pid), pid, env.heir, env.now);
      if s.players[p].lid != lid {
        ElsewhereAgrees(s, o.state, o.out, pid, lid, p);
      } else {
        assert p in lobby.players;
        StayingAgrees(s, pid, reason, lobby, o, p);
      }
    }
  }

  lemma StayingAgrees(s: State, pid: BasicId, reason: Kick, lobby: Lobby, o: Outcome, p: BasicId)
    requires Seated(s, pid) && Seated(s, p) && p != pid && s.players[p].lid == s.players[pid].lid
    requires lobby.players == LobbyOf(s, p).players - {pid} && lobby.listed == LobbyOf(s, p).listed
    requires lobby.capacity == LobbyOf(s, p).capacity && lobby.metadata == LobbyOf(s, p).metadata
    requires o.state.players == s.players - {pid} && o.state.lobbies == s.lobbies[s.players[p].lid := lobby]
    requires SentTo(o.out, p) == [Left(pid, reason), SetMaster(lobby.master)]
    ensures Seated(o.state, p) && Agrees(s, o.state, o.out, p)
  {
    FoldTwo(View(s, p), Left(pid, reason), SetMaster(lobby.master));
    assert Companions(o.state, lobby.players - {p}) == Companions(s, LobbyOf(s, p).players - {p}) - {pid};
  }

  lemma SameAgrees(s: State, t: State, out: Outbox, p: BasicId)
    requires Seated(s, p) && t.lobbies == s.lobbies && t.players == s.players
    requires SentTo(out, p) == [] || (|SentTo(out, p)| == 1 && Silent(SentTo(out, p)[0]))
    ensures Seated(t, p) && Agrees(s, t, out, p)
  {
    var msgs := SentTo(out, p);
    if msgs != [] {
      assert msgs == [msgs[0]];
      FoldOne(View(s, p), msgs[0]);
    }
  }

  lemma QuietMessages(s: State, op: Op, env: Env, p: BasicId)
    requires LeavesLobbies(op) && EnvOk(s, op, env)
    ensures var msgs := SentTo(Step(s, op, env).out, p); msgs == [] || (|msgs| == 1 && Silent(msgs[0]))
  {
  }

  lemma HostAgrees(s: State, op: Op, env: Env, p: BasicId, o: Outcome)
    requires Linked(s) && op.HostLobby? && EnvOk(s, op, env) && p in s.players && o == Host(s, op, env)
    ensures Seated(o.state, p) && Agrees(s, o.state, o.out, p)
  {
    if HostDenial(s, op, env.now).Some? {
      SameAgrees(s, o.state, o.out, p);
    } else {
      var lid := LobbyId(op.gid, env.lid);
      HostedAs(s, op, env);
      HostedTells(s, op, env);
      ElsewhereAgrees(s, o.state, o.out, env.pid, lid, p);
    }
  }

  lemma ChargedSame(s: State, ip: Ip, now: real, p: BasicId)
    requires Linked(s) && p in s.players
    ensures Linked(ChargePeer(s, ip, now)) && Seated(ChargePeer(s, ip, now), p)
    ensures View(ChargePeer(s, ip, now), p) == View(s, p)
  {
  }

  lemma JoinAgrees(s: State, op: Op, env: Env, p: BasicId)
    requires Linked(s) && op.JoinLobby? && EnvOk(s, op, env) && p in s.players
    ensures var o := Join(s, op, env); Seated(o.state, p) && Agrees(s, o.state, o.out, p)
  {
    var o := Join(s, op, env);
    var s1 := ChargePeer(s, op.ip, env.now);
    if JoinDenial(s, op, env.now).Some? {
      SameAgrees(s, o.state, o.out, p);
    } else {
      ChargedSame(s, op.ip, env.now, p);
      InsertAgrees(s1, op.lid, env.pid, op.playerMetadata, env, p);
      assert o == Insert(s1, op.lid, env.pid, op.playerMetadata, env);
    }
  }

  /**
   * Every operation, whatever it chooses: the messages it sends to a player who stays turn what that player's
   * client should hold before it into what it should hold after it.
   */
  lemma StepAgrees(s: State, op: Op, env: Env, p: BasicId)
    requires Linked(s) && EnvOk(s, op, env) && p in s.players && !(op.RemovePlayer? && op.pid == p)
    ensures var o := Step(s, op, env); Seated(o.state, p) && Agrees(s, o.state, o.out, p)
  {
    if LeavesLobbies(op) {
      LobbiesLeft(s, op, env);
      QuietMessages(s, op, env, p);
      SameAgrees(s, Step(s, op, env).state, Step(s, op, env).out, p);
    } else {
      match op
      case SetLobbyMetaOp(initiator, key, value) => LobbyFieldSetAgrees(s, initiator, key, value, env.now, p);
      case EraseLobbyMetaOp(initiator, key) => LobbyFieldErasedAgrees(s, initiator, key, p);
      case SetPlayerMetaOp(pid, key, value) => FieldSetAgrees(s, pid, key, value, env.now, p);
      case ErasePlayerMetaOp(pid, key) => FieldErasedAgrees(s, pid, key, p);
      case HostLobby(_, _, _, _, _, _) => HostAgrees(s, op, env, p, Host(s, op, env));
      case JoinLobby(_, _, _) => JoinAgrees(s, op, env, p);
      case RemovePlayer(pid, reason) => LeavingAgrees(s, pid, reason, env, p);
      case SetCapacityOp(_, _) => AlterationAgrees(s, op, env.now, p);
      case SetListedOp(_, _) => AlterationAgrees(s, op, env.now, p);
      case SetMasterOp(_, _) => AlterationAgrees(s, op, env.now, p);
    }
  }
}
