/**
 * The event loop itself: four maps updated in place, and the message queues of the sessions it can reach. Every
 * method is proved to do exactly what the operation's function says, whatever order the hash tables iterate in.
 */
module EventLoop {
  import opened Basics
  import opened Tokens
  import opened Server
  import opened ServerInvariants
  import opened System

  type Queues = map<BasicId, seq<ServerMessage>>

  // Sending, one message after another.

  lemma EnqueuedTwice(q: seq<ServerMessage>, a: seq<ServerMessage>, b: seq<ServerMessage>)
    ensures Enqueued(Enqueued(q, a), b) == Enqueued(q, a + b)
  {
    if |q| <= QUEUE_CAP < |q| + |a| + |b| {
      var room := QUEUE_CAP - |q|;
      if |a| <= room {
        assert a + b[..room - |a|] == (a + b)[..room];
      } else {
        assert a[..room] == (a + b)[..room];
      }
    }
  }

  function Adding(out: Outbox, pid: BasicId, msg: ServerMessage): Outbox {
    out[pid := SentTo(out, pid) + [msg]]
  }

  lemma DeliverOneMore(base: Queues, out: Outbox, pid: BasicId, msg: ServerMessage)
    ensures Deliver(Deliver(base, out), map[pid := [msg]]) == Deliver(base, Adding(out, pid, msg))
  {
    forall p | p in base
      ensures Enqueued(Deliver(base, out)[p], SentTo(map[pid := [msg]], p))
        == Enqueued(base[p], SentTo(Adding(out, pid, msg), p))
    {
      EnqueuedTwice(base[p], SentTo(out, p), SentTo(map[pid := [msg]], p));
      assert p != pid ==> SentTo(out, p) + [] == SentTo(out, p);
    }
  }

  lemma NothingDelivered(base: Queues)
    ensures Deliver(base, map[]) == base
  {
    forall p | p in base ensures Enqueued(base[p], []) == base[p] {
      assert base[p] + [] == base[p];
    }
  }

  lemma BroadcastOneMore(base: Queues, done: set<BasicId>, pid: BasicId, msg: ServerMessage)
    requires pid !in done
    ensures Deliver(Deliver(base, Broadcast(done, [msg])), map[pid := [msg]])
      == Deliver(base, Broadcast(done + {pid}, [msg]))
  {
    DeliverOneMore(base, Broadcast(done, [msg]), pid, msg);
    assert [] + [msg] == [msg];
    assert Adding(Broadcast(done, [msg]), pid, msg) == Broadcast(done + {pid}, [msg]);
  }

  lemma DeliverTo(base: Queues, pid: BasicId, msg: ServerMessage)
    ensures Deliver(base, map[pid := [msg]])
      == if pid in base && |base[pid]| < QUEUE_CAP then base[pid := base[pid] + [msg]] else base
  {
    forall p | p in base
      ensures Deliver(base, map[pid := [msg]])[p]
        == if p == pid && |base[pid]| < QUEUE_CAP then base[pid] + [msg] else base[p]
    {
      if p != pid {
        assert base[p] + [] == base[p];
      } else if |base[p]| == QUEUE_CAP {
        assert base[p] + [msg][..0] == base[p];
      }
    }
  }

  lemma DeliverMany(base: Queues, pid: BasicId, sent: seq<ServerMessage>, msg: ServerMessage)
    ensures Deliver(Deliver(base, map[pid := sent]), map[pid := [msg]]) == Deliver(base, map[pid := sent + [msg]])
  {
    DeliverOneMore(base, map[pid := sent], pid, msg);
  }

  lemma DeliverLast(base: Queues, out: Outbox, pid: BasicId, sent: seq<ServerMessage>, msg: ServerMessage)
    ensures Deliver(Deliver(base, out[pid := sent]), map[pid := [msg]]) == Deliver(base, out[pid := sent + [msg]])
  {
    DeliverOneMore(base, out[pid := sent], pid, msg);
    assert Adding(out[pid := sent], pid, msg) == out[pid := sent + [msg]];
  }

  lemma JoinedOneMore(known: map<BasicId, Player>, members: seq<BasicId>, id: BasicId, told: seq<ServerMessage>)
    requires id in known && forall p :: p in members ==> p in known
    ensures told + JoinedMessages(known, members + [id])
      == told + JoinedMessages(known, members) + [Joined(id, known[id].metadata, known[id].birth)]
  {
    assert (members + [id])[..|members|] == members;
  }

  lemma MetaOneMore(metadata: Metadata, keys: seq<Text>, key: Text, told: seq<ServerMessage>)
    requires key in metadata && forall k :: k in keys ==> k in metadata
    ensures told + MetaMessages(metadata, keys + [key])
      == told + MetaMessages(metadata, keys) + [SetLobbyMeta(key, metadata[key])]
  {
    assert (keys + [key])[..|keys|] == keys;
  }

  /** The snapshot in terms of the lobby and the table of players as they were. */
  ghost function SnapshotOf(
      was: Lobby, known: map<BasicId, Player>, lid: LobbyId, pid: BasicId, birth: nat, env: Env): seq<ServerMessage>
    requires Enumerates(env.members, was.players) && Enumerates(env.keys, was.metadata.Keys)
    requires was.players <= known.Keys
  {
    [SetListed(was.listed), SetCapacity(was.capacity)]
    + MetaMessages(was.metadata, env.keys)
    + [Connected(pid, lid.lid, birth)]
    + JoinedMessages(known, env.members)
    + [SetMaster(was.master)]
  }

  lemma InsertIs(
      s: State, lid: LobbyId, pid: BasicId, metadata: Metadata, env: Env, birth: nat, t: State,
      sent: seq<ServerMessage>)
    requires OrdersOk(s, lid, env) && birth == Millis(env.now - s.lobbies[lid].createdAt)
    requires t == PutPlayer(PutLobby(s, lid, Entered(s.lobbies[lid], pid)), pid,
                            Player(lid, metadata, birth, FreshMetadata("player_metadata", env.now)))
    requires sent == Snapshot(s, lid, pid, birth, env)
    ensures Insert(s, lid, pid, metadata, env).state == t
    ensures Insert(s, lid, pid, metadata, env).out
      == Broadcast(s.lobbies[lid].players, [Joined(pid, metadata, birth)])[pid := sent]
  {
  }

  /** One message to a newcomer about a member, and one to the member about the newcomer. */
  lemma DeliverPair(
      base: Queues, done: set<BasicId>, news: ServerMessage, pid: BasicId, sent: seq<ServerMessage>,
      id: BasicId, msg: ServerMessage)
    requires id !in done && id != pid
    ensures Deliver(Deliver(Deliver(base, Broadcast(done, [news])[pid := sent]), map[pid := [msg]]), map[id := [news]])
      == Deliver(base, Broadcast(done + {id}, [news])[pid := sent + [msg]])
  {
    var out := Broadcast(done, [news])[pid := sent];
    DeliverOneMore(base, out, pid, msg);
    DeliverOneMore(base, Adding(out, pid, msg), id, news);
    assert [] + [news] == [news];
    assert Adding(Adding(out, pid, msg), id, news) == Broadcast(done + {id}, [news])[pid := sent + [msg]];
  }

  /** The queues when the newcomer `pid` and each of `done` have been told of each other. */
  ghost predicate Introducing(
      queues: Queues, base: Queues, known: map<BasicId, Player>, news: ServerMessage, pid: BasicId,
      told: seq<ServerMessage>, done: set<BasicId>, members: seq<BasicId>)
  {
    && (forall p :: p in members ==> p in known)
    && queues == Deliver(base, Broadcast(done, [news])[pid := told + JoinedMessages(known, members)])
  }

  lemma NoneIntroduced(
      queues: Queues, base: Queues, known: map<BasicId, Player>, news: ServerMessage, pid: BasicId,
      told: seq<ServerMessage>)
    requires queues == Deliver(base, map[pid := told])
    ensures Introducing(queues, base, known, news, pid, told, {}, [])
  {
    assert told + [] == told;
    assert Broadcast({}, [news])[pid := told] == map[pid := told];
  }

  lemma OneMoreIntroduced(
      before: Queues, base: Queues, known: map<BasicId, Player>, news: ServerMessage, pid: BasicId,
      told: seq<ServerMessage>, done: set<BasicId>, members: seq<BasicId>, id: BasicId, after: Queues)
    requires Introducing(before, base, known, news, pid, told, done, members)
    requires id in known && id != pid && id !in done
    requires var msg := Joined(id, known[id].metadata, known[id].birth);
      after == Deliver(Deliver(before, map[pid := [msg]]), map[id := [news]])
    ensures Introducing(after, base, known, news, pid, told, done + {id}, members + [id])
  {
    var msg := Joined(id, known[id].metadata, known[id].birth);
    DeliverPair(base, done, news, pid, told + JoinedMessages(known, members), id, msg);
    JoinedOneMore(known, members, id, told);
  }

  /** Three deliveries in a row add up, if they do for every player. */
  lemma DeliverThrice(base: Queues, a: Outbox, b: Outbox, c: Outbox, all: Outbox)
    requires forall p :: SentTo(all, p) == SentTo(a, p) + SentTo(b, p) + SentTo(c, p)
    ensures Deliver(Deliver(Deliver(base, a), b), c) == Deliver(base, all)
  {
    forall p | p in base ensures Deliver(Deliver(Deliver(base, a), b), c)[p] == Deliver(base, all)[p] {
      EnqueuedThrice(base[p], SentTo(a, p), SentTo(b, p), SentTo(c, p));
    }
  }

  lemma DeliverFarewell(
      base: Queues, pid: BasicId, members: set<BasicId>, bye: ServerMessage, m: ServerMessage, n: ServerMessage)
    requires pid !in members
    ensures Deliver(Deliver(Deliver(base, map[pid := [bye]]), Broadcast(members, [m])), Broadcast(members, [n]))
      == Deliver(base, Broadcast(members, [m, n]) + map[pid := [bye]])
  {
    DeliverThrice(base, map[pid := [bye]], Broadcast(members, [m]), Broadcast(members, [n]),
                  Broadcast(members, [m, n]) + map[pid := [bye]]);
  }

  lemma EnqueuedThrice(q: seq<ServerMessage>, a: seq<ServerMessage>, b: seq<ServerMessage>, c: seq<ServerMessage>)
    ensures Enqueued(Enqueued(Enqueued(q, a), b), c) == Enqueued(q, a + b + c)
  {
    EnqueuedTwice(q, a, b);
    EnqueuedTwice(q, a + b, c);
  }

  /** Some order in which a set may be iterated over. */
  ghost function SomeOrder<T(!new)>(s: set<T>): (order: seq<T>)
    ensures Enumerates(order, s)
    decreases s
  {
    if s == {} then []
    else
      var x :| x in s;
      SomeOrder(s - {x}) + [x]
  }

  // Counting through the index.

  /** The listed lobbies of a game, found through the index. */
  function IndexedListed(s: State, gid: GameId): set<BasicId> {
    if gid in s.gidLobbies then
      set id | id in s.gidLobbies[gid] && LobbyId(gid, id) in s.lobbies && s.lobbies[LobbyId(gid, id)].listed
    else {}
  }

  lemma SameCount(ids: set<BasicId>, lobbies: set<LobbyId>, gid: GameId)
    requires forall id :: id in ids <==> LobbyId(gid, id) in lobbies
    requires forall l :: l in lobbies ==> l.gid == gid
    ensures |ids| == |lobbies|
  {
    var f := map id | id in ids :: LobbyId(gid, id);
    InjectiveImageSize(ids, f, lobbies);
    InjectiveImageSize(lobbies, map l | l in lobbies :: l.lid, ids);
  }

  lemma IndexCountsListed(s: State, gid: GameId)
    requires IndexExact(s)
    ensures |IndexedListed(s, gid)| == |ListedUnder(s, gid)|
  {
    SameCount(IndexedListed(s, gid), ListedUnder(s, gid), gid);
  }

  /** The lobbies among the visited ones that a listing may show. */
  ghost function Shown(s: State, gid: GameId, ids: set<BasicId>): set<LobbyId> {
    set l | l in Joinable(s, gid) && l.lid in ids
  }

  lemma ShownGrows(s: State, gid: GameId, ids: set<BasicId>, id: BasicId)
    requires id !in ids
    ensures Shown(s, gid, ids + {id})
      == Shown(s, gid, ids) + (if LobbyId(gid, id) in Joinable(s, gid) then {LobbyId(gid, id)} else {})
  {
  }

  lemma AllShown(s: State, gid: GameId)
    requires IndexExact(s)
    ensures Shown(s, gid, if gid in s.gidLobbies then s.gidLobbies[gid] else {}) == Joinable(s, gid)
  {
  }

  /** Distinct entries, each describing one of the lobbies that may be shown. */
  ghost predicate Lists(s: State, gid: GameId, ids: set<BasicId>, list: seq<LobbyListing>) {
    && (forall i, j :: 0 <= i < j < |list| ==> list[i].lid != list[j].lid)
    && (forall i :: 0 <= i < |list| ==> list[i].lid in ids)
    && (forall i :: 0 <= i < |list| ==>
         LobbyId(gid, list[i].lid) in Joinable(s, gid) && list[i] == ListingOf(s, LobbyId(gid, list[i].lid)))
  }

  ghost predicate ListedSoFar(s: State, gid: GameId, all: set<BasicId>, rest: set<BasicId>, list: seq<LobbyListing>) {
    Lists(s, gid, all - rest, list) && |list| == |Shown(s, gid, all - rest)|
  }

  lemma ListsGrows(s: State, gid: GameId, all: set<BasicId>, rest: set<BasicId>, list: seq<LobbyListing>, id: BasicId)
    requires ListedSoFar(s, gid, all, rest, list) && id in rest && id in all
    ensures ListedSoFar(s, gid, all, rest - {id},
      if LobbyId(gid, id) in Joinable(s, gid) then list + [ListingOf(s, LobbyId(gid, id))] else list)
  {
    ShownGrows(s, gid, all - rest, id);
    assert all - rest + {id} == all - (rest - {id});
    if LobbyId(gid, id) in Joinable(s, gid) {
      OneMoreListed(s, gid, all - rest, list, id);
    } else {
      assert Lists(s, gid, all - (rest - {id}), list);
    }
  }

  lemma OneMoreListed(s: State, gid: GameId, ids: set<BasicId>, list: seq<LobbyListing>, id: BasicId)
    requires Lists(s, gid, ids, list) && id !in ids && LobbyId(gid, id) in Joinable(s, gid)
    ensures Lists(s, gid, ids + {id}, list + [ListingOf(s, LobbyId(gid, id))])
  {
  }

  lemma ListingDone(s: State, gid: GameId, all: set<BasicId>, rest: set<BasicId>, list: seq<LobbyListing>, asked: nat)
    requires IndexExact(s) && all == if gid in s.gidLobbies then s.gidLobbies[gid] else {}
    requires ListedSoFar(s, gid, all, rest, list) && |list| <= Clamp(asked)
    requires rest == {} || |list| == Clamp(asked)
    ensures IsListing(s, gid, asked, list)
  {
    AllShown(s, gid);
    SubsetSize(Shown(s, gid, all - rest), Joinable(s, gid));
    if rest == {} {
      assert all - rest == all;
    }
  }

  lemma NoOneToGoThrough(members: seq<BasicId>)
    requires Enumerates(members, {})
    ensures members == []
  {
    EnumerationSize(members, {});
  }

  // What hosting and joining come to.

  ghost predicate Hosted(s: State, op: Op, env: Env, reply: Reply, t: State, before: Queues, after: Queues)
    requires op.HostLobby? && EnvOk(s, op, env)
  {
    var o := Host(s, op, env);
    t == o.state && reply == o.reply && after == Deliver(Opened(before, o.reply), o.out)
  }

  ghost predicate JoinedAs(s: State, op: Op, env: Env, reply: Reply, t: State, before: Queues, after: Queues)
    requires op.JoinLobby? && EnvOk(s, op, env)
  {
    var o := Join(s, op, env);
    t == o.state && reply == o.reply && after == Deliver(Opened(before, o.reply), o.out)
  }

  /** Choices for a join that may yet be turned down. */
  ghost function SomeJoinEnv(s: State, lid: LobbyId, pid: BasicId, now: real): Env {
    Env(now, pid, lid.lid, SomeOrder(Members(s, lid)),
        if lid in s.lobbies then SomeOrder(s.lobbies[lid].metadata.Keys) else [], NULL, [])
  }

  lemma SomeOrdersOk(s: State, lid: LobbyId, env: Env)
    requires Linked(s) && lid in s.lobbies
    requires Enumerates(env.members, s.lobbies[lid].players) && Enumerates(env.keys, s.lobbies[lid].metadata.Keys)
    ensures OrdersOk(s, lid, env)
  {
    OrderWithin(env.members, s.lobbies[lid].players, s.players.Keys);
  }

  lemma SomeJoinEnvOk(s: State, op: Op, pid: BasicId, now: real)
    requires op.JoinLobby? && Linked(s) && pid != NULL && pid !in s.players
    ensures EnvOk(s, op, SomeJoinEnv(s, op.lid, pid, now))
  {
    if op.lid in s.lobbies {
      SomeOrdersOk(s, op.lid, SomeJoinEnv(s, op.lid, pid, now));
    }
  }

  lemma OrderWithin<T>(order: seq<T>, s: set<T>, all: set<T>)
    requires Enumerates(order, s) && s <= all
    ensures forall x :: x in order ==> x in all
  {
  }

  lemma HostDenied(s: State, op: Op, env: Env, reason: Kick, queues: Queues)
    requires op.HostLobby? && EnvOk(s, op, env) && HostDenial(s, op, env.now) == Some(reason)
    ensures Hosted(s, op, env, Denied(reason), ChargePeer(s, op.ip, env.now), queues, queues)
  {
    NothingDelivered(queues);
  }

  lemma HostAdmitted(s: State, op: Op, env: Env, t: State, before: Queues, after: Queues)
    requires op.HostLobby? && EnvOk(s, op, env) && HostDenial(s, op, env.now).None?
    requires OrdersOk(Founded(ChargePeer(s, op.ip, env.now), op, env), LobbyId(op.gid, env.lid), env)
    requires var o := Insert(Founded(ChargePeer(s, op.ip, env.now), op, env),
      LobbyId(op.gid, env.lid), env.pid, op.playerMetadata, env);
      t == o.state && after == Deliver(Opened(before, Admitted(env.pid)), o.out)
    ensures Hosted(s, op, env, Admitted(env.pid), t, before, after)
  {
  }

  lemma JoinDenied(s: State, op: Op, env: Env, reason: Kick, queues: Queues)
    requires op.JoinLobby? && EnvOk(s, op, env) && JoinDenial(s, op, env.now) == Some(reason)
    ensures JoinedAs(s, op, env, Denied(reason), ChargePeer(s, op.ip, env.now), queues, queues)
  {
    NothingDelivered(queues);
  }

  lemma JoinAdmitted(s: State, op: Op, env: Env, t: State, before: Queues, after: Queues)
    requires op.JoinLobby? && EnvOk(s, op, env) && JoinDenial(s, op, env.now).None?
    requires OrdersOk(ChargePeer(s, op.ip, env.now), op.lid, env)
    requires var o := Insert(ChargePeer(s, op.ip, env.now), op.lid, env.pid, op.playerMetadata, env);
      t == o.state && after == Deliver(Opened(before, Admitted(env.pid)), o.out)
    ensures JoinedAs(s, op, env, Admitted(env.pid), t, before, after)
  {
  }

  // Pruning, lobby by lobby.

  function InactiveIn(s: State, lids: set<LobbyId>, now: real): set<BasicId> {
    set p | p in InactivePlayers(s, now) && s.players[p].lid in lids
  }

  lemma InactiveGrows(s: State, all: set<LobbyId>, rest: set<LobbyId>, lid: LobbyId, now: real)
    requires Linked(s) && all == s.lobbies.Keys && lid in rest && rest <= all
    ensures InactiveIn(s, all - (rest - {lid}), now)
      == InactiveIn(s, all - rest, now) + (if Inactive(s.lobbies[lid], now) then s.lobbies[lid].players else {})
    ensures InactiveIn(s, all - rest, now) !! s.lobbies[lid].players
  {
  }

  // The operation's function, met.

  ghost predicate Stepped(s: State, op: Op, env: Env, o: Outcome) {
    EnvOk(s, op, env) && o == Step(s, op, env)
  }

  /** The state, the answer and the queues are the ones that the operation's function gives. */
  ghost predicate Performed(s: State, op: Op, env: Env, reply: Reply, t: State, before: Queues, after: Queues) {
    exists o :: Stepped(s, op, env, o) && t == o.state && reply == o.reply
      && after == Deliver(Opened(before, o.reply), o.out)
  }

  lemma AlterationPerformed(s: State, op: Op, env: Env, t: State, before: Queues, after: Queues)
    requires IsAlteration(op)
    requires t == Alteration(s, op, env.now).state && after == Deliver(before, Alteration(s, op, env.now).out)
    ensures Performed(s, op, env, NoReply, t, before, after)
  {
    assert Stepped(s, op, env, Alteration(s, op, env.now));
  }

  predicate ChangesFields(op: Op) {
    op.SetPlayerMetaOp? || op.ErasePlayerMetaOp? || op.SetLobbyMetaOp? || op.EraseLobbyMetaOp?
  }

  function FieldChange(s: State, op: Op, now: real): Outcome
    requires ChangesFields(op)
  {
    match op
    case SetPlayerMetaOp(pid, key, value) => SetPlayerField(s, pid, key, value, now)
    case ErasePlayerMetaOp(pid, key) => ErasePlayerField(s, pid, key)
    case SetLobbyMetaOp(initiator, key, value) => SetLobbyField(s, initiator, key, value, now)
    case EraseLobbyMetaOp(initiator, key) => EraseLobbyField(s, initiator, key)
  }

  lemma FieldChangePerformed(s: State, op: Op, env: Env, t: State, before: Queues, after: Queues)
    requires ChangesFields(op)
    requires var o := FieldChange(s, op, env.now); t == o.state && after == Deliver(before, o.out)
    ensures Performed(s, op, env, NoReply, t, before, after)
  {
    assert FieldChange(s, op, env.now).reply.NoReply?;
    assert Stepped(s, op, env, FieldChange(s, op, env.now));
  }

  lemma MessagePerformed(s: State, op: Op, env: Env, before: Queues, after: Queues)
    requires op.KickPlayer? || op.Relay?
    requires after == Deliver(before, Step(s, op, env).out)
    ensures Performed(s, op, env, NoReply, s, before, after)
  {
    assert Stepped(s, op, env, Step(s, op, env));
  }

  lemma RemovalPerformed(s: State, op: Op, env: Env, t: State, before: Queues, after: Queues)
    requires op.RemovePlayer? && EnvOk(s, op, env)
    requires var o := Remove(s, op.pid, op.reason, env.heir, env.now); t == o.state && after == Deliver(before, o.out)
    ensures Performed(s, op, env, NoReply, t, before, after)
  {
    assert Stepped(s, op, env, Remove(s, op.pid, op.reason, env.heir, env.now));
  }

  lemma PrunePerformed(s: State, env: Env, t: State, before: Queues, after: Queues)
    requires var o := PruneOutcome(s, env.now); t == o.state && after == Deliver(before, o.out)
    ensures Performed(s, Prune, env, NoReply, t, before, after)
  {
    assert Stepped(s, Prune, env, PruneOutcome(s, env.now));
  }

  /** Operations that send no message and admit no one. */
  predicate AnswersOnly(op: Op) {
    op.AssemblePong? || op.ListLobbies? || op.IntroduceSession? || op.CloseSession?
  }

  lemma QuietlyPerformed(s: State, op: Op, env: Env, reply: Reply, t: State, queues: Queues)
    requires AnswersOnly(op)
    requires Stepped(s, op, env, Outcome(t, map[], reply))
    ensures Performed(s, op, env, reply, t, queues, queues)
  {
    NothingDelivered(queues);
  }

  lemma PongPerformed(s: State, pid: BasicId, env: Env, pong: set<BasicId>, queues: Queues)
    requires Linked(s)
    requires forall q :: q in pong <==> pid in s.players && q in s.players && s.players[q].lid == s.players[pid].lid
    ensures Performed(s, AssemblePong(pid), env, Ponged(pong), s, queues, queues)
  {
    assert pong == if pid in s.players then LobbyOf(s, pid).players else {};
    QuietlyPerformed(s, AssemblePong(pid), env, Ponged(pong), s, queues);
  }

  lemma ListPerformed(s: State, op: Op, env: Env, reply: Reply, t: State, queues: Queues)
    requires op.ListLobbies? && EnvOk(s, op, env) && t == ChargePeer(s, op.ip, env.now)
    requires reply == if PassesCap(s, op.ip, env.now) then Listed(env.listing)
                      else Denied(Violation("rate_limited", "Sessions per IP cap"))
    ensures Performed(s, op, env, reply, t, queues, queues)
  {
    QuietlyPerformed(s, op, env, reply, t, queues);
  }

  lemma IntroductionPerformed(s: State, ip: Ip, env: Env, granted: bool, t: State, queues: Queues)
    requires t == Introduce(s, ip, env.now).state && Granted(granted) == Introduce(s, ip, env.now).reply
    ensures Performed(s, IntroduceSession(ip), env, Granted(granted), t, queues, queues)
  {
    QuietlyPerformed(s, IntroduceSession(ip), env, Granted(granted), t, queues);
  }

  lemma ClosingPerformed(s: State, ip: Ip, env: Env, t: State, queues: Queues)
    requires t == Close(s, ip, env.now)
    ensures Performed(s, CloseSession(ip), env, NoReply, t, queues, queues)
  {
    QuietlyPerformed(s, CloseSession(ip), env, NoReply, t, queues);
  }

  lemma AdmissionPerformed(s: State, op: Op, env: Env, reply: Reply, t: State, before: Queues, after: Queues)
    requires (op.HostLobby? || op.JoinLobby?) && EnvOk(s, op, env)
    requires op.HostLobby? ==> Hosted(s, op, env, reply, t, before, after)
    requires op.JoinLobby? ==> JoinedAs(s, op, env, reply, t, before, after)
    ensures Performed(s, op, env, reply, t, before, after)
  {
    assert Stepped(s, op, env, if op.HostLobby? then Host(s, op, env) else Join(s, op, env));
  }

  lemma PerformedKeepsValid(s: State, op: Op, env: Env, reply: Reply, t: State, before: Queues, after: Queues)
    requires Valid(s) && ValidOp(op) && Performed(s, op, env, reply, t, before, after)
    ensures Valid(t) && EnvOk(s, op, env)
  {
    var o :| Stepped(s, op, env, o) && t == o.state;
    StepKeepsValid(s, op, env);
  }

  class BlasterEventLoop {
    var gidLobbies: map<GameId, set<BasicId>>
    var lobbies: map<LobbyId, Lobby>
    var players: map<BasicId, Player>
    var peers: map<Ip, Peer>
    var queues: Queues

    function View(): State
      reads this
    {
      State(gidLobbies, lobbies, players, peers)
    }

    constructor ()
      ensures View() == EMPTY && queues == map[] && Valid(View())
    {
      gidLobbies, lobbies, players, peers, queues := map[], map[], map[], map[], map[];
      new;
      EmptyIsValid();
    }

    /** `try_send`: a full queue, or one whose session is over, loses the message. */
    method Send(pid: BasicId, msg: ServerMessage)
      modifies this`queues
      ensures queues == Deliver(old(queues), map[pid := [msg]])
    {
      DeliverTo(queues, pid, msg);
      if pid in queues && |queues[pid]| < QUEUE_CAP {
        queues := queues[pid := queues[pid] + [msg]];
      }
    }

    method SendToLobby(lid: LobbyId, msg: ServerMessage)
      requires lid in lobbies ==> lobbies[lid].players <= players.Keys
      modifies this`queues
      ensures queues == Deliver(old(queues), Broadcast(Members(View(), lid), [msg]))
    {
      NothingDelivered(queues);
      if lid in lobbies {
        var rest := lobbies[lid].players;
        ghost var done := {};
        while rest != {}
          invariant done !! rest && done + rest == lobbies[lid].players
          invariant queues == Deliver(old(queues), Broadcast(done, [msg]))
        {
          var id :| id in rest;
          if id in players {
            Send(id, msg);
          }
          BroadcastOneMore(old(queues), done, id, msg);
          rest, done := rest - {id}, done + {id};
        }
      }
    }

    /** Taking from a budget on behalf of a player, who is told to go if there is too little. */
    method TryTakeFromBudget(pid: BasicId, budget: Bucket, count: nat, now: real) returns (ok: bool, after: Bucket)
      modifies this`queues
      ensures ok == Allows(budget, now, count) && after == Taken(budget, now, count)
      ensures queues == Deliver(old(queues), if ok then map[] else Boot(pid, budget))
    {
      ok, after := Allows(budget, now, count), Taken(budget, now, count);
      NothingDelivered(queues);
      if !ok {
        Send(pid, Disconnected(Violated(budget)));
      }
    }

    /** The master's lobby, for a player who is one. */
    predicate Masters(pid: BasicId)
      reads this
    {
      pid in players && players[pid].lid in lobbies && lobbies[players[pid].lid].master == pid
    }

    method SetCapacity(initiator: BasicId, capacity: nat, now: real)
      requires Linked(View())
      modifies this`lobbies, this`queues
      ensures var o := Alteration(old(View()), SetCapacityOp(initiator, capacity), now);
        View() == o.state && queues == Deliver(old(queues), o.out)
    {
      NothingDelivered(queues);
      if Masters(initiator) {
        var lid := players[initiator].lid;
        var ok, budget := TryTakeFromBudget(initiator, lobbies[lid].alterations, 1, now);
        lobbies := lobbies[lid := lobbies[lid].(alterations := budget)];
        if ok {
          lobbies := lobbies[lid := lobbies[lid].(capacity := capacity)];
          assert lobbies[lid].players == old(lobbies)[lid].players;
          SendToLobby(lid, ServerMessage.SetCapacity(capacity));
        }
      }
    }

    method SetListed(initiator: BasicId, listed: bool, now: real)
      requires Linked(View())
      modifies this`lobbies, this`queues
      ensures var o := Alteration(old(View()), SetListedOp(initiator, listed), now);
        View() == o.state && queues == Deliver(old(queues), o.out)
    {
      NothingDelivered(queues);
      if Masters(initiator) {
        var lid := players[initiator].lid;
        var ok, budget := TryTakeFromBudget(initiator, lobbies[lid].alterations, 1, now);
        lobbies := lobbies[lid := lobbies[lid].(alterations := budget)];
        if ok {
          lobbies := lobbies[lid := lobbies[lid].(listed := listed)];
          assert lobbies[lid].players == old(lobbies)[lid].players;
          SendToLobby(lid, ServerMessage.SetListed(listed));
        }
      }
    }

    method SetMaster(initiator: BasicId, newMaster: BasicId, now: real)
      requires Linked(View())
      modifies this`lobbies, this`queues
      ensures var o := Alteration(old(View()), SetMasterOp(initiator, newMaster), now);
        View() == o.state && queues == Deliver(old(queues), o.out)
    {
      NothingDelivered(queues);
      if newMaster != initiator && Masters(initiator)
         && newMaster in players && players[newMaster].lid == players[initiator].lid {
        var lid := players[initiator].lid;
        var ok, budget := TryTakeFromBudget(initiator, lobbies[lid].alterations, 1, now);
        lobbies := lobbies[lid := lobbies[lid].(alterations := budget)];
        if ok {
          lobbies := lobbies[lid := lobbies[lid].(master := newMaster)];
          assert lobbies[lid].players == old(lobbies)[lid].players;
          SendToLobby(lid, ServerMessage.SetMaster(newMaster));
        }
      }
    }

    // Metadata.

    method SetPlayerMeta(pid: BasicId, key: Text, value: Text, now: real)
      requires Linked(View())
      modifies this`players, this`queues
      ensures var o := SetPlayerField(old(View()), pid, key, value, now);
        View() == o.state && queues == Deliver(old(queues), o.out)
    {
      NothingDelivered(queues);
      if pid in players && CanAdd(players[pid].metadata, key) {
        var lid := players[pid].lid;
        var ok, budget := TryTakeFromBudget(pid, players[pid].metadataBudget, |key| + |value|, now);
        players := players[pid := players[pid].(metadataBudget := budget)];
        if ok {
          players := players[pid := players[pid].(metadata := players[pid].metadata[key := value])];
          SendToLobby(lid, ServerMessage.SetPlayerMeta(pid, key, value));
        }
      }
    }

    method ErasePlayerMeta(pid: BasicId, key: Text)
      requires Linked(View())
      modifies this`players, this`queues
      ensures var o := ErasePlayerField(old(View()), pid, key);
        View() == o.state && queues == Deliver(old(queues), o.out)
    {
      NothingDelivered(queues);
      if pid in players && key in players[pid].metadata {
        var lid := players[pid].lid;
        players := players[pid := players[pid].(metadata := players[pid].metadata - {key})];
        SendToLobby(lid, ServerMessage.ErasePlayerMeta(pid, key));
      }
    }

    method SetLobbyMeta(initiator: BasicId, key: Text, value: Text, now: real)
      requires Linked(View())
      modifies this`lobbies, this`queues
      ensures var o := SetLobbyField(old(View()), initiator, key, value, now);
        View() == o.state && queues == Deliver(old(queues), o.out)
    {
      NothingDelivered(queues);
      if Masters(initiator) && CanAdd(lobbies[players[initiator].lid].metadata, key) {
        var lid := players[initiator].lid;
        var ok, budget := TryTakeFromBudget(initiator, lobbies[lid].metadataBudget, |key| + |value|, now);
        lobbies := lobbies[lid := lobbies[lid].(metadataBudget := budget)];
        if ok {
          lobbies := lobbies[lid := lobbies[lid].(metadata := lobbies[lid].metadata[key := value])];
          assert lobbies[lid].players == old(lobbies)[lid].players;
          SendToLobby(lid, ServerMessage.SetLobbyMeta(key, value));
        }
      }
    }

    method EraseLobbyMeta(initiator: BasicId, key: Text)
      requires Linked(View())
      modifies this`lobbies, this`queues
      ensures var o := EraseLobbyField(old(View()), initiator, key);
        View() == o.state && queues == Deliver(old(queues), o.out)
    {
      NothingDelivered(queues);
      if Masters(initiator) && key in lobbies[players[initiator].lid].metadata {
        var lid := players[initiator].lid;
        lobbies := lobbies[lid := lobbies[lid].(metadata := lobbies[lid].metadata - {key})];
        assert lobbies[lid].players == old(lobbies)[lid].players;
        SendToLobby(lid, ServerMessage.EraseLobbyMeta(key));
      }
    }

    // One message at most.

    method KickPlayer(kicker: BasicId, kickee: BasicId)
      modifies this`queues
      ensures queues == Deliver(old(queues),
        if IsMaster(View(), kicker) && kickee in players && players[kickee].lid == players[kicker].lid
        then map[kickee := [Disconnected(KICKED)]] else map[])
    {
      NothingDelivered(queues);
      if Masters(kicker) && kickee in players && players[kickee].lid == players[kicker].lid {
        Send(kickee, Disconnected(KICKED));
      }
    }

    method Relay(from: BasicId, to: BasicId, signal: Signal)
      modifies this`queues
      ensures queues == Deliver(old(queues),
        if from in players && to in players && players[from].lid == players[to].lid
        then map[to := [Relayed(from, signal)]] else map[])
    {
      NothingDelivered(queues);
      if from in players && to in players && players[from].lid == players[to].lid {
        Send(to, Relayed(from, signal));
      }
    }

    /** Everyone in the player's lobby, and nobody exactly when the player is gone. */
    method AssemblePong(pid: BasicId) returns (pong: set<BasicId>)
      requires Linked(View())
      ensures forall q :: q in pong <==> pid in players && q in players && players[q].lid == players[pid].lid
      ensures pong == {} <==> pid !in players
    {
      if pid in players && players[pid].lid in lobbies {
        pong := lobbies[players[pid].lid].players;
      } else {
        pong := {};
      }
    }

    // Joining.

    /** Adding a player to a lobby; `env` tells the orders in which the hash tables were gone through. */
    method InsertPlayer(pid: BasicId, lid: LobbyId, metadata: Metadata, now: real) returns (ghost env: Env)
      requires lid in lobbies && pid !in players && lobbies[lid].players <= players.Keys
      modifies this`lobbies, this`players, this`queues
      ensures env.now == now && env.pid == pid && env.lid == lid.lid
      ensures OrdersOk(old(View()), lid, env)
      ensures var o := Insert(old(View()), lid, pid, metadata, env);
        View() == o.state && queues == Deliver(old(queues), o.out)
    {
      var was := lobbies[lid];
      var crowd := was.players + {pid};
      lobbies := lobbies[lid :=
        was.(players := crowd, idleSince := if |crowd| >= CHUD_THRESHOLD then None else was.idleSince)];
      var birth := Millis(now - was.createdAt);
      players := players[pid := Player(lid, metadata, birth, FreshMetadata("player_metadata", now))];
      env := Greet(pid, lid, was, birth, now, old(players));
      ghost var s := old(View());
      InsertIs(s, lid, pid, metadata, env, birth, View(), Snapshot(s, lid, pid, birth, env));
    }

    /** What the newcomer and the members hear of each other and of the lobby as it was. */
    method Greet(pid: BasicId, lid: LobbyId, was: Lobby, birth: nat, now: real, ghost known: map<BasicId, Player>)
      returns (ghost env: Env)
      requires pid in players && pid !in known && players == known[pid := players[pid]] && was.players <= known.Keys
      requires players[pid].birth == birth
      modifies this`queues
      ensures env.now == now && env.pid == pid && env.lid == lid.lid
      ensures Enumerates(env.members, was.players) && Enumerates(env.keys, was.metadata.Keys)
      ensures queues == Deliver(old(queues),
        Broadcast(was.players, [Joined(pid, players[pid].metadata, birth)])
          [pid := SnapshotOf(was, known, lid, pid, birth, env)])
    {
      ghost var base := queues;
      Send(pid, ServerMessage.SetListed(was.listed));
      Send(pid, ServerMessage.SetCapacity(was.capacity));
      ghost var told := [ServerMessage.SetListed(was.listed), ServerMessage.SetCapacity(was.capacity)];
      DeliverMany(base, pid, [ServerMessage.SetListed(was.listed)], ServerMessage.SetCapacity(was.capacity));
      assert [ServerMessage.SetListed(was.listed)] + [ServerMessage.SetCapacity(was.capacity)] == told;
      ghost var keys := SendMetadata(pid, was.metadata, base, told);
      told := told + MetaMessages(was.metadata, keys);
      Send(pid, Connected(pid, lid.lid, birth));
      DeliverMany(base, pid, told, Connected(pid, lid.lid, birth));
      told := told + [Connected(pid, lid.lid, birth)];
      ghost var members := Announce(pid, was.players, base, told, known);
      told := told + JoinedMessages(known, members);
      Send(pid, ServerMessage.SetMaster(was.master));
      DeliverLast(base, Broadcast(was.players, [Joined(pid, players[pid].metadata, birth)]), pid, told,
                  ServerMessage.SetMaster(was.master));
      env := Env(now, pid, lid.lid, members, keys, NULL, []);
    }

    /** The lobby's metadata, field by field in some order. */
    method SendMetadata(pid: BasicId, metadata: Metadata, ghost base: Queues, ghost told: seq<ServerMessage>)
      returns (ghost keys: seq<Text>)
      requires queues == Deliver(base, map[pid := told])
      modifies this`queues
      ensures Enumerates(keys, metadata.Keys)
      ensures queues == Deliver(base, map[pid := told + MetaMessages(metadata, keys)])
    {
      var rest := metadata.Keys;
      keys := [];
      assert told + [] == told;
      while rest != {}
        invariant rest <= metadata.Keys && Enumerates(keys, metadata.Keys - rest)
        invariant forall k :: k in keys ==> k in metadata
        invariant queues == Deliver(base, map[pid := told + MetaMessages(metadata, keys)])
      {
        var key :| key in rest;
        Send(pid, ServerMessage.SetLobbyMeta(key, metadata[key]));
        DeliverMany(base, pid, told + MetaMessages(metadata, keys), ServerMessage.SetLobbyMeta(key, metadata[key]));
        OneMoreInOrder(keys, metadata.Keys, rest, key);
        MetaOneMore(metadata, keys, key, told);
        rest, keys := rest - {key}, keys + [key];
      }
    }

    /** Members and newcomer told of each other; `known` is the table of players before the newcomer. */
    method Announce(
        pid: BasicId, others: set<BasicId>, ghost base: Queues, ghost told: seq<ServerMessage>,
        ghost known: map<BasicId, Player>)
      returns (ghost members: seq<BasicId>)
      requires pid in players && pid !in known && players == known[pid := players[pid]] && others <= known.Keys
      requires queues == Deliver(base, map[pid := told])
      modifies this`queues
      ensures Enumerates(members, others)
      ensures queues == Deliver(base,
        Broadcast(others, [Joined(pid, players[pid].metadata, players[pid].birth)])
          [pid := told + JoinedMessages(known, members)])
    {
      var rest := others;
      var news := Joined(pid, players[pid].metadata, players[pid].birth);
      members := [];
      NoneIntroduced(queues, base, known, news, pid, told);
      while rest != {}
        invariant rest <= others && Enumerates(members, others - rest)
        invariant Introducing(queues, base, known, news, pid, told, others - rest, members)
      {
        var id :| id in rest;
        ghost var before, done := queues, others - rest;
        if id in players {
          Send(pid, Joined(id, players[id].metadata, players[id].birth));
          Send(id, news);
          OneMoreIntroduced(before, base, known, news, pid, told, done, members, id, queues);
        }
        OneMoreInOrder(members, others, rest, id);
        rest, members := rest - {id}, members + [id];
        assert others - rest == done + {id};
      }
      assert others - rest == others;
    }

    // Listing, hosting and joining.

    method CapIp(ip: Ip, now: real) returns (ok: bool)
      modifies this`peers
      ensures ok == PassesCap(old(View()), ip, now)
      ensures View() == ChargePeer(old(View()), ip, now)
    {
      if ip in peers {
        ok := Allows(peers[ip].budget, now, 1);
        peers := peers[ip := peers[ip].(budget := Taken(peers[ip].budget, now, 1))];
      } else {
        ok := false;
      }
    }

    method ListLobbies(ip: Ip, gid: GameId, limit: nat, now: real) returns (reply: Reply, ghost env: Env)
      requires IndexExact(View())
      modifies this`peers
      ensures View() == ChargePeer(old(View()), ip, now)
      ensures EnvOk(old(View()), Op.ListLobbies(ip, gid, limit), env) && env.now == now
      ensures reply == if PassesCap(old(View()), ip, now) then Listed(env.listing)
                       else Denied(Violation("rate_limited", "Sessions per IP cap"))
    {
      var ok := CapIp(ip, now);
      env := Env(now, NULL, NULL, [], [], NULL, []);
      if !ok {
        reply := Denied(Violation("rate_limited", "Sessions per IP cap"));
      } else {
        var list := Listing(gid, limit);
        env := env.(listing := list);
        reply := Listed(list);
      }
    }

    /** Going through the index of one game, filtering and describing, until there is enough. */
    method Listing(gid: GameId, asked: nat) returns (list: seq<LobbyListing>)
      requires IndexExact(View())
      ensures IsListing(View(), gid, asked, list)
    {
      var ids := if gid in gidLobbies then gidLobbies[gid] else {};
      var rest := ids;
      list := [];
      assert Shown(View(), gid, ids - rest) == {};
      while rest != {} && |list| < Clamp(asked)
        invariant rest <= ids && |list| <= Clamp(asked)
        invariant ListedSoFar(View(), gid, ids, rest, list)
      {
        var id :| id in rest;
        var lid := LobbyId(gid, id);
        ListsGrows(View(), gid, ids, rest, list, id);
        if lid in lobbies && lobbies[lid].listed && !lobbies[lid].IsFull() {
          var lobby := lobbies[lid];
          list := list + [LobbyListing(id, |lobby.players|, lobby.capacity, Truncated(lobby.metadata))];
        }
        rest := rest - {id};
      }
      ListingDone(View(), gid, ids, rest, list, asked);
    }

    method HostLobby(
        initiator: Ip, gid: GameId, lobbyMetadata: Metadata, capacity: nat, listed: bool, playerMetadata: Metadata,
        pid: BasicId, lid: BasicId, now: real)
      returns (reply: Reply, ghost env: Env)
      requires Linked(View()) && IndexExact(View())
      requires pid != NULL && pid !in players && LobbyId(gid, lid) !in lobbies
      modifies this
      ensures var op := Op.HostLobby(initiator, gid, lobbyMetadata, capacity, listed, playerMetadata);
        && EnvOk(old(View()), op, env) && env.now == now
        && Hosted(old(View()), op, env, reply, View(), old(queues), queues)
    {
      var op := Op.HostLobby(initiator, gid, lobbyMetadata, capacity, listed, playerMetadata);
      ghost var s := View();
      env := Env(now, pid, lid, [], SomeOrder(lobbyMetadata.Keys), NULL, []);
      var denial := CheckHost(op, now);
      if denial.Some? {
        HostDenied(s, op, env, denial.value, queues);
        reply := Denied(denial.value);
      } else {
        env := Found(op, pid, lid, now);
        HostAdmitted(s, op, env, View(), old(queues), queues);
        reply := Admitted(pid);
      }
    }

    /** Charging for the request and counting what the address and the game already have. */
    method CheckHost(op: Op, now: real) returns (denial: Option<Kick>)
      requires op.HostLobby? && IndexExact(View())
      modifies this`peers
      ensures denial == HostDenial(old(View()), op, now)
      ensures View() == ChargePeer(old(View()), op.ip, now)
    {
      ghost var s := View();
      var ok := CapIp(op.ip, now);
      if !ok {
        return Some(Violation("rate_limited", "Sessions per IP cap"));
      }
      var mine, listedMine := CountHosted(op.ip);
      assert mine == |LobbiesFrom(s, op.ip)| && listedMine == |ListedFrom(s, op.ip)|;
      if (op.listed && listedMine > 0) || mine >= LOBBIES_PER_IP {
        return Some(Violation("rate_limited", "Lobbies per IP limit"));
      }
      if op.listed {
        var count := CountListed(op.gid);
        assert count == |ListedUnder(s, op.gid)|;
        if count >= LISTED_LOBBIES_PER_GID {
          return Some(Violation("rate_limited", "Lobbies per GID limit"));
        }
      }
      return None;
    }

    /** The lobbies an address has founded, and how many of them are listed. */
    method CountHosted(initiator: Ip) returns (mine: nat, listedMine: nat)
      ensures mine == |LobbiesFrom(View(), initiator)| && listedMine == |ListedFrom(View(), initiator)|
    {
      var hosted := set l | l in lobbies && lobbies[l].initiator == initiator;
      assert hosted == LobbiesFrom(View(), initiator);
      var shown := set l | l in hosted && lobbies[l].listed;
      assert shown == ListedFrom(View(), initiator);
      mine, listedMine := |hosted|, |shown|;
    }

    /** The listed lobbies of a game, counted through the index. */
    method CountListed(gid: GameId) returns (count: nat)
      requires IndexExact(View())
      ensures count == |ListedUnder(View(), gid)|
    {
      IndexCountsListed(View(), gid);
      if gid in gidLobbies {
        count := |set id | id in gidLobbies[gid] && LobbyId(gid, id) in lobbies && lobbies[LobbyId(gid, id)].listed|;
        assert count == |IndexedListed(View(), gid)|;
      } else {
        count := 0;
      }
    }

    /** A new lobby, its place in the index, and its first player. */
    method Found(op: Op, pid: BasicId, lid: BasicId, now: real) returns (ghost env: Env)
      requires op.HostLobby? && Linked(View())
      requires pid != NULL && pid !in players && LobbyId(op.gid, lid) !in lobbies
      modifies this`lobbies, this`gidLobbies, this`players, this`queues
      ensures env.now == now && env.pid == pid && env.lid == lid && env.members == []
      ensures Enumerates(env.keys, op.lobbyMetadata.Keys)
      ensures OrdersOk(Founded(old(View()), op, env), LobbyId(op.gid, lid), env)
      ensures var o := Insert(Founded(old(View()), op, env), LobbyId(op.gid, lid), pid, op.playerMetadata, env);
        View() == o.state && queues == Deliver(Opened(old(queues), Admitted(pid)), o.out)
    {
      var id := LobbyId(op.gid, lid);
      lobbies := lobbies[id :=
        Lobby({}, op.ip, pid, op.lobbyMetadata, op.capacity, op.listed, Some(now), now,
              Fresh("lobby_alterations", 1.0, 2.0, 2.0, now), FreshMetadata("lobby_metadata", now))];
      if op.gid in gidLobbies {
        gidLobbies := gidLobbies[op.gid := gidLobbies[op.gid] + {lid}];
      } else {
        gidLobbies := gidLobbies[op.gid := {lid}];
      }
      queues := queues[pid := []];
      env := InsertPlayer(pid, id, op.playerMetadata, now);
      NoOneToGoThrough(env.members);
    }

    method JoinLobby(ip: Ip, lid: LobbyId, playerMetadata: Metadata, pid: BasicId, now: real)
      returns (reply: Reply, ghost env: Env)
      requires Linked(View()) && pid != NULL && pid !in players
      modifies this`peers, this`lobbies, this`players, this`queues
      ensures var op := Op.JoinLobby(ip, lid, playerMetadata);
        && EnvOk(old(View()), op, env) && env.now == now
        && JoinedAs(old(View()), op, env, reply, View(), old(queues), queues)
    {
      ghost var s := View();
      ghost var op := Op.JoinLobby(ip, lid, playerMetadata);
      env := SomeJoinEnv(s, lid, pid, now);
      SomeJoinEnvOk(s, op, pid, now);
      var ok := CapIp(ip, now);
      if !ok {
        reply := Denied(Violation("rate_limited", "Sessions per IP cap"));
        JoinDenied(s, op, env, reply.reason, queues);
      } else if lid !in lobbies {
        reply := Denied(Violation("lobby_not_found", "Lobby not found"));
        JoinDenied(s, op, env, reply.reason, queues);
      } else if lobbies[lid].IsFull() {
        reply := Denied(Violation("lobby_full", "Lobby is full"));
        JoinDenied(s, op, env, reply.reason, queues);
      } else {
        assert JoinDenial(s, op, now).None?;
        queues := queues[pid := []];
        env := InsertPlayer(pid, lid, playerMetadata, now);
        reply := Admitted(pid);
        JoinAdmitted(s, op, env, View(), old(queues), queues);
      }
    }

    // Leaving.

    method RemovePlayer(pid: BasicId, reason: Kick, now: real) returns (ghost heir: BasicId)
      requires Linked(View())
      modifies this`players, this`lobbies, this`gidLobbies, this`queues
      ensures pid in old(players) && LobbyOf(old(View()), pid).players != {pid}
        ==> heir in LobbyOf(old(View()), pid).players - {pid}
      ensures var o := Remove(old(View()), pid, reason, heir, now);
        View() == o.state && queues == Deliver(old(queues), o.out)
    {
      heir := NULL;
      NothingDelivered(queues);
      if pid !in players {
        return;
      }
      ghost var s := View();
      var lid := players[pid].lid;
      players := players - {pid};
      Send(pid, Disconnected(reason));
      ghost var rest := lobbies[lid].players - {pid};
      var master;
      master, heir := Depart(pid, lid, now);
      MasterGoneIffEmpty(s, pid, heir, now);
      if master == NULL {
        Unindex(lid);
        lobbies := lobbies - {lid};
        assert lobbies == s.lobbies - {lid};
        RemovedLast(s, pid, reason, heir, now);
      } else {
        SendToLobby(lid, Left(pid, reason));
        SendToLobby(lid, ServerMessage.SetMaster(master));
        DeliverFarewell(old(queues), pid, rest, Disconnected(reason),
          Left(pid, reason), ServerMessage.SetMaster(master));
        RemovedOne(s, pid, reason, heir, now);
      }
    }

    /** A player taken off its lobby's list, and the master's role off the player. */
    method Depart(pid: BasicId, lid: LobbyId, now: real) returns (master: BasicId, ghost heir: BasicId)
      requires lid in lobbies
      modifies this`lobbies
      ensures old(lobbies)[lid].players - {pid} != {} ==> heir in old(lobbies)[lid].players - {pid}
      ensures lobbies == old(lobbies)[lid := Departed(old(lobbies)[lid], pid, heir, now)]
      ensures master == lobbies[lid].master
    {
      var lobby := lobbies[lid];
      var rest := lobby.players - {pid};
      lobbies := lobbies[lid := lobbies[lid].(players := rest)];
      if |rest| < CHUD_THRESHOLD && lobby.idleSince.None? {
        lobbies := lobbies[lid := lobbies[lid].(idleSince := Some(now))];
      }
      heir := NULL;
      if rest != {} {
        var next :| next in rest;
        heir := next;
        if pid == lobby.master {
          lobbies := lobbies[lid := lobbies[lid].(master := next)];
        }
      } else if pid == lobby.master {
        lobbies := lobbies[lid := lobbies[lid].(master := NULL)];
      }
      return lobbies[lid].master, heir;
    }

    method Unindex(lid: LobbyId)
      modifies this`gidLobbies
      ensures gidLobbies == Unindexed(old(gidLobbies), lid)
    {
      if lid.gid in gidLobbies {
        gidLobbies := gidLobbies[lid.gid := gidLobbies[lid.gid] - {lid.lid}];
        if gidLobbies[lid.gid] == {} {
          gidLobbies := gidLobbies - {lid.gid};
        }
      }
    }

    // Sessions of an address.

    method CountSessions() returns (total: nat)
      ensures total == TotalSessions(peers)
    {
      total := 0;
      var rest := peers;
      while rest != map[]
        invariant total + TotalSessions(rest) == TotalSessions(peers)
        decreases rest.Keys
      {
        var i :| i in rest;
        TotalWithout(rest, i);
        total, rest := total + rest[i].Count(), rest - {i};
      }
    }

    method IntroduceSession(ip: Ip, now: real) returns (granted: bool)
      modifies this`peers
      ensures var o := Introduce(old(View()), ip, now); View() == o.state && Granted(granted) == o.reply
    {
      var total := CountSessions();
      if total >= GLOBAL_SESSIONS_CAP {
        granted := false;
      } else if ip in peers {
        if peers[ip].Count() >= SESSIONS_PER_IP_CAP {
          granted := false;
        } else {
          peers := peers[ip := peers[ip].(sessions := Active(peers[ip].Count() + 1))];
          granted := true;
        }
      } else if |peers| >= GLOBAL_PEERS_CAP {
        granted := false;
      } else {
        peers := peers[ip := NewPeer(now)];
        granted := true;
      }
    }

    method CloseSession(ip: Ip, now: real)
      modifies this`peers
      ensures View() == Close(old(View()), ip, now)
    {
      if ip in peers {
        match peers[ip].sessions
        case Decaying(_) =>
        case Active(count) =>
          var left := if count == 0 then 0 else count - 1;
          peers := peers[ip := peers[ip].(sessions := if left == 0 then Decaying(now) else Active(left))];
      }
    }

    // Pruning.

    method Prune(now: real)
      requires Linked(View())
      modifies this`peers, this`queues
      ensures var o := PruneOutcome(old(View()), now); View() == o.state && queues == Deliver(old(queues), o.out)
    {
      BootInactive(now);
      peers := peers - ExpiredPeers(peers, now);
    }

    method BootInactive(now: real)
      requires Linked(View())
      modifies this`queues
      ensures queues == Deliver(old(queues), Broadcast(InactivePlayers(View(), now), [Disconnected(INACTIVE_LOBBY)]))
    {
      var rest := lobbies.Keys;
      ghost var s, told := View(), {};
      NothingDelivered(queues);
      assert told == InactiveIn(s, lobbies.Keys - rest, now);
      while rest != {}
        invariant rest <= lobbies.Keys && told == InactiveIn(s, lobbies.Keys - rest, now)
        invariant queues == Deliver(old(queues), Broadcast(told, [Disconnected(INACTIVE_LOBBY)]))
      {
        var lid :| lid in rest;
        InactiveGrows(s, lobbies.Keys, rest, lid, now);
        if lobbies[lid].idleSince.Some? && now - lobbies[lid].idleSince.value >= CHUD_LOBBY_TIMEOUT {
          BootAll(lobbies[lid].players, old(queues), told);
          told := told + lobbies[lid].players;
        }
        rest := rest - {lid};
      }
      assert told == InactivePlayers(s, now);
    }

    method BootAll(members: set<BasicId>, ghost base: Queues, ghost before: set<BasicId>)
      requires members <= players.Keys && members !! before
      requires queues == Deliver(base, Broadcast(before, [Disconnected(INACTIVE_LOBBY)]))
      modifies this`queues
      ensures queues == Deliver(base, Broadcast(before + members, [Disconnected(INACTIVE_LOBBY)]))
    {
      var rest := members;
      ghost var done := before;
      while rest != {}
        invariant rest <= members && rest !! done && done + rest == before + members
        invariant queues == Deliver(base, Broadcast(done, [Disconnected(INACTIVE_LOBBY)]))
      {
        var pid :| pid in rest;
        if pid in players {
          Send(pid, Disconnected(INACTIVE_LOBBY));
        }
        BroadcastOneMore(base, done, pid, Disconnected(INACTIVE_LOBBY));
        rest, done := rest - {pid}, done + {pid};
      }
    }

    /** One operation off the channel. `pid` and `lid` are the random ids it draws, should it need them. */
    method Recv(op: Op, pid: BasicId, lid: BasicId, now: real) returns (reply: Reply, ghost env: Env)
      requires Valid(View()) && ValidOp(op)
      requires pid != NULL && pid !in players && (op.HostLobby? ==> LobbyId(op.gid, lid) !in lobbies)
      modifies this
      ensures env.now == now
      ensures Performed(old(View()), op, env, reply, View(), old(queues), queues)
      ensures Valid(View())
    {
      reply, env := Dispatch(op, pid, lid, now);
      PerformedKeepsValid(old(View()), op, env, reply, View(), old(queues), queues);
    }

    method Dispatch(op: Op, pid: BasicId, lid: BasicId, now: real) returns (reply: Reply, ghost env: Env)
      requires Linked(View()) && IndexExact(View())
      requires pid != NULL && pid !in players && (op.HostLobby? ==> LobbyId(op.gid, lid) !in lobbies)
      modifies this
      ensures env.now == now
      ensures Performed(old(View()), op, env, reply, View(), old(queues), queues)
    {
      ghost var s, q := View(), queues;
      reply := NoReply;
      env := Env(now, pid, lid, [], [], NULL, []);
      if AnswersOnly(op) {
        reply, env := RecvQuestion(op, now);
        return;
      }
      if IsAlteration(op) || ChangesFields(op) {
        RecvChange(op, now);
        if IsAlteration(op) {
          AlterationPerformed(s, op, env, View(), q, queues);
        } else {
          FieldChangePerformed(s, op, env, View(), q, queues);
        }
        return;
      }
      match op {
        case HostLobby(ip, gid, lobbyMetadata, capacity, listed, playerMetadata) =>
          reply, env := HostLobby(ip, gid, lobbyMetadata, capacity, listed, playerMetadata, pid, lid, now);
          AdmissionPerformed(s, op, env, reply, View(), q, queues);
        case JoinLobby(ip, lobby, playerMetadata) =>
          reply, env := JoinLobby(ip, lobby, playerMetadata, pid, now);
          AdmissionPerformed(s, op, env, reply, View(), q, queues);
        case RemovePlayer(player, reason) =>
          var heir := RemovePlayer(player, reason, now);
          env := env.(heir := heir);
          RemovalPerformed(s, op, env, View(), q, queues);
        case Prune =>
          Prune(now);
          PrunePerformed(s, env, View(), q, queues);
        case KickPlayer(kicker, kickee) =>
          KickPlayer(kicker, kickee);
          MessagePerformed(s, op, env, q, queues);
        case Relay(from, to, signal) =>
          Relay(from, to, signal);
          MessagePerformed(s, op, env, q, queues);
      }
    }

    method RecvQuestion(op: Op, now: real) returns (reply: Reply, ghost env: Env)
      requires Linked(View()) && IndexExact(View()) && AnswersOnly(op)
      modifies this`peers
      ensures env.now == now
      ensures Performed(old(View()), op, env, reply, View(), queues, queues)
    {
      ghost var s := View();
      reply := NoReply;
      env := Env(now, NULL, NULL, [], [], NULL, []);
      match op {
        case AssemblePong(player) =>
          var pong := AssemblePong(player);
          reply := Ponged(pong);
          PongPerformed(s, player, env, pong, queues);
        case ListLobbies(ip, gid, limit) =>
          reply, env := ListLobbies(ip, gid, limit, now);
          ListPerformed(s, op, env, reply, View(), queues);
        case IntroduceSession(ip) =>
          var granted := IntroduceSession(ip, now);
          reply := Granted(granted);
          IntroductionPerformed(s, ip, env, granted, View(), queues);
        case CloseSession(ip) =>
          CloseSession(ip, now);
          ClosingPerformed(s, ip, env, View(), queues);
      }
    }

    method RecvChange(op: Op, now: real)
      requires Linked(View()) && (IsAlteration(op) || ChangesFields(op))
      modifies this
      ensures var o := if IsAlteration(op) then Alteration(old(View()), op, now) else FieldChange(old(View()), op, now);
        View() == o.state && queues == Deliver(old(queues), o.out)
    {
      match op
      case SetCapacityOp(initiator, capacity) => SetCapacity(initiator, capacity, now);
      case SetListedOp(initiator, listed) => SetListed(initiator, listed, now);
      case SetMasterOp(initiator, newMaster) => SetMaster(initiator, newMaster, now);
      case SetPlayerMetaOp(player, key, value) => SetPlayerMeta(player, key, value, now);
      case ErasePlayerMetaOp(player, key) => ErasePlayerMeta(player, key);
      case SetLobbyMetaOp(initiator, key, value) => SetLobbyMeta(initiator, key, value, now);
      case EraseLobbyMetaOp(initiator, key) => EraseLobbyMeta(initiator, key);
    }
  }
}
