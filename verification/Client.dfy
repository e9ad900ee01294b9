/**
 * The client library's side: message handlers that update the replica in place and the callbacks they make. An
 * application that does nothing but follow the callbacks holds what the library holds.
 */
module Client {
  import opened Basics
  import opened Replica

  /** A changed field: its value before and after, if it had or has one. */
  datatype Diff = Diff(name: Text, before: Option<Text>, after: Option<Text>)

  datatype Callback =
    | Arrived
    | Ready
    | Ended(reason: Kick)
    | PlayerJoined(pid: BasicId)
    | PlayerLeft(pid: BasicId, reason: Kick)
    | LobbiesFound(list: seq<LobbyListing>)
    | MasterChanged(before: BasicId)
    | PlayerMetaChanged(pid: BasicId, diff: Diff)
    | LobbyMetaChanged(diff: Diff)

  // An application that follows the callbacks.

  /** `arrived` and `ready` tell whether the callbacks of that name have been made since the last end. */
  datatype App = App(
    lobby: Metadata,
    players: map<BasicId, Metadata>,
    joined: set<BasicId>,
    arrived: bool,
    ready: bool)

  function Known(app: App, pid: BasicId): Metadata {
    if pid in app.players then app.players[pid] else map[]
  }

  function Patched(m: Metadata, d: Diff): Metadata {
    match d.after
    case Some(value) => m[d.name := value]
    case None => m - {d.name}
  }

  function Absorb(app: App, cb: Callback): App {
    match cb
    case PlayerMetaChanged(pid, diff) => app.(players := app.players[pid := Patched(Known(app, pid), diff)])
    case LobbyMetaChanged(diff) => app.(lobby := Patched(app.lobby, diff))
    case PlayerJoined(pid) => app.(joined := app.joined + {pid})
    case PlayerLeft(pid, _) => app.(players := app.players - {pid}, joined := app.joined - {pid})
    case Ended(_) => app.(players := map[], joined := {}, arrived := false, ready := false)
    case Arrived => app.(arrived := true)
    case Ready => app.(ready := true)
    case _ => app
  }

  /** What the application holds after the callbacks, oldest first. */
  function Following(app: App, log: seq<Callback>): App {
    if log == [] then app else Absorb(Following(app, log[..|log| - 1]), log[|log| - 1])
  }

  /**
   * A callback that tells the truth: a diff is a change, and it starts from the value that the application holds,
   * except exactly when it is about a field erased from a player not announced yet: of such a field the application
   * has not heard. Arriving comes first and once, readiness once, and no one joins twice.
   */
  predicate Honest(app: App, cb: Callback) {
    match cb
    case PlayerMetaChanged(pid, diff) =>
      && diff.before != diff.after
      && (diff.before == Lookup(Known(app, pid), diff.name) <==> pid in app.joined || diff.after.Some?)
    case LobbyMetaChanged(diff) => diff.before != diff.after && diff.before == Lookup(app.lobby, diff.name)
    case PlayerJoined(pid) => app.arrived && pid !in app.joined
    case Arrived => !app.arrived
    case Ready => app.arrived && !app.ready
    case _ => true
  }

  ghost predicate TruthAt(start: App, app: App, states: seq<App>, log: seq<Callback>, i: nat) {
    && |states| == |log| + 1 && states[0] == start && states[|log|] == app
    && (i < |log| ==> Honest(states[i], log[i]) && states[i + 1] == Absorb(states[i], log[i]))
  }

  /** The application has gone through `states`, from `start` to `app`, and has been told the truth in each. */
  ghost predicate Chronicle(start: App, app: App, states: seq<App>, log: seq<Callback>) {
    forall i: nat :: TruthAt(start, app, states, log, i)
  }

  lemma OneMoreCallback(start: App, app: App, states: seq<App>, log: seq<Callback>, cb: Callback)
    requires Chronicle(start, app, states, log) && Honest(app, cb)
    ensures Chronicle(start, Absorb(app, cb), states + [Absorb(app, cb)], log + [cb])
  {
    var states', log' := states + [Absorb(app, cb)], log + [cb];
    assert TruthAt(start, app, states, log, 0);
    forall i: nat ensures TruthAt(start, Absorb(app, cb), states', log', i) {
      assert TruthAt(start, app, states, log, i);
    }
  }

  /** The states are what folding the callbacks gives, and every callback was honest when it was made. */
  lemma {:induction false} ChronicleFollows(start: App, app: App, states: seq<App>, log: seq<Callback>)
    requires Chronicle(start, app, states, log)
    ensures app == Following(start, log) && |states| == |log| + 1
    ensures forall i :: 0 <= i < |log| ==> Honest(states[i], log[i]) && states[i] == Following(start, log[..i])
    decreases |log|
  {
    assert TruthAt(start, app, states, log, 0);
    if log != [] {
      var n := |log| - 1;
      assert TruthAt(start, app, states, log, n);
      var states', log' := states[..n + 1], log[..n];
      forall i: nat ensures TruthAt(start, states[n], states', log', i) {
        assert TruthAt(start, app, states, log, i);
      }
      ChronicleFollows(start, states[n], states', log');
      forall i | 0 <= i < |log| ensures Honest(states[i], log[i]) && states[i] == Following(start, log[..i]) {
        if i < n {
          assert log'[..i] == log[..i] && states'[i] == states[i] && log'[i] == log[i];
        }
      }
    }
  }

  // The library.

  /** Another player in the lobby, and whether the application has been told of it. */
  datatype Mate = Mate(metadata: Metadata, birth: nat, announced: bool)

  ghost predicate SyncAt(app: App, lobbyMeta: Metadata, players: map<BasicId, Mate>, p: BasicId) {
    && app.lobby == lobbyMeta
    && (p in app.joined <==> p in players && players[p].announced)
    && Known(app, p) == if p in players && players[p].announced then players[p].metadata else map[]
  }

  /** The application holds the lobby's fields, and those of exactly the players that have been announced to it. */
  ghost predicate InSync(app: App, lobbyMeta: Metadata, players: map<BasicId, Mate>) {
    forall p :: SyncAt(app, lobbyMeta, players, p)
  }

  lemma SetKeepsSync(app: App, lobbyMeta: Metadata, players: map<BasicId, Mate>, pid: BasicId, key: Text, value: Text)
    requires InSync(app, lobbyMeta, players) && pid in players
    ensures var mate := players[pid];
      var after := players[pid := mate.(metadata := mate.metadata[key := value])];
      var cb := PlayerMetaChanged(pid, Diff(key, Lookup(mate.metadata, key), Some(value)));
      && InSync(if mate.announced then Absorb(app, cb) else app, lobbyMeta, after)
      && (mate.announced && Lookup(mate.metadata, key) != Some(value) ==> Honest(app, cb))
      && (Lookup(mate.metadata, key) == Some(value) ==> after == players)
  {
    var mate := players[pid];
    var after := players[pid := mate.(metadata := mate.metadata[key := value])];
    var cb := PlayerMetaChanged(pid, Diff(key, Lookup(mate.metadata, key), Some(value)));
    assert SyncAt(app, lobbyMeta, players, pid);
    var app' := if mate.announced then Absorb(app, cb) else app;
    forall p ensures SyncAt(app', lobbyMeta, after, p) {
      assert SyncAt(app, lobbyMeta, players, p);
    }
    if Lookup(mate.metadata, key) == Some(value) {
      assert mate.metadata[key := value] == mate.metadata;
    }
  }

  lemma SetRefines(players: map<BasicId, Mate>, r: Shadow, pid: BasicId, key: Text, value: Text)
    requires r.others == Others(players) && pid in players && pid != r.self
    ensures var mate := players[pid];
      Apply(r, SetPlayerMeta(pid, key, value))
      == r.(others := Others(players[pid := mate.(metadata := mate.metadata[key := value])]))
  {
  }

  lemma EraseRefines(players: map<BasicId, Mate>, r: Shadow, pid: BasicId, key: Text)
    requires r.others == Others(players) && pid in players && pid != r.self
    ensures var mate := players[pid];
      Apply(r, ErasePlayerMeta(pid, key))
        == r.(others := Others(players[pid := mate.(metadata := mate.metadata - {key})]))
  {
  }

  lemma EraseKeepsSync(app: App, lobbyMeta: Metadata, players: map<BasicId, Mate>, pid: BasicId, key: Text)
    requires InSync(app, lobbyMeta, players) && pid in players
    ensures var mate := players[pid];
      var after := players[pid := mate.(metadata := mate.metadata - {key})];
      && (key !in mate.metadata ==> after == players)
      && (key in mate.metadata ==>
           var cb := PlayerMetaChanged(pid, Diff(key, Some(mate.metadata[key]), None));
           InSync(Absorb(app, cb), lobbyMeta, after) && Honest(app, cb))
  {
    var mate := players[pid];
    if key in mate.metadata {
      var after := players[pid := mate.(metadata := mate.metadata - {key})];
      var cb := PlayerMetaChanged(pid, Diff(key, Some(mate.metadata[key]), None));
      assert SyncAt(app, lobbyMeta, players, pid);
      forall p ensures SyncAt(Absorb(app, cb), lobbyMeta, after, p) {
        assert SyncAt(app, lobbyMeta, players, p);
        if p == pid && !mate.announced {
          assert Patched(map[], cb.diff) == map[];
        }
      }
    } else {
      assert mate.metadata - {key} == mate.metadata;
    }
  }

  /**
   * The value that an erasure reports as erased is the one the application holds exactly if the player is announced.
   */
  lemma ErasureMatchesIffAnnounced(app: App, lobbyMeta: Metadata, players: map<BasicId, Mate>, pid: BasicId, key: Text)
    requires InSync(app, lobbyMeta, players) && pid in players && key in players[pid].metadata
    ensures Some(players[pid].metadata[key]) == Lookup(Known(app, pid), key) <==> players[pid].announced
  {
    assert SyncAt(app, lobbyMeta, players, pid);
  }

  lemma LobbyChangeKeepsSync(app: App, lobbyMeta: Metadata, players: map<BasicId, Mate>, d: Diff)
    requires InSync(app, lobbyMeta, players) && d.before == Lookup(lobbyMeta, d.name) && d.before != d.after
    ensures InSync(Absorb(app, LobbyMetaChanged(d)), Patched(lobbyMeta, d), players) && Honest(app, LobbyMetaChanged(d))
  {
    assert SyncAt(app, lobbyMeta, players, NULL);
    forall p ensures SyncAt(Absorb(app, LobbyMetaChanged(d)), Patched(lobbyMeta, d), players, p) {
      assert SyncAt(app, lobbyMeta, players, p);
    }
  }

  /** Callbacks that are not about fields or players. */
  lemma NewsKeepsSync(app: App, lobbyMeta: Metadata, players: map<BasicId, Mate>, cb: Callback)
    requires InSync(app, lobbyMeta, players) && (cb.Arrived? || cb.Ready? || cb.LobbiesFound? || cb.MasterChanged?)
    ensures InSync(Absorb(app, cb), lobbyMeta, players)
  {
    forall p ensures SyncAt(Absorb(app, cb), lobbyMeta, players, p) {
      assert SyncAt(app, lobbyMeta, players, p);
    }
  }

  lemma LeavingKeepsSync(app: App, lobbyMeta: Metadata, players: map<BasicId, Mate>, pid: BasicId, reason: Kick)
    requires InSync(app, lobbyMeta, players)
    ensures InSync(Absorb(app, PlayerLeft(pid, reason)), lobbyMeta, players - {pid})
    ensures Others(players - {pid}) == Others(players) - {pid}
    ensures pid !in players ==> players - {pid} == players
  {
    forall p ensures SyncAt(Absorb(app, PlayerLeft(pid, reason)), lobbyMeta, players - {pid}, p) {
      assert SyncAt(app, lobbyMeta, players, p);
    }
  }

  lemma JoiningKeepsSync(
      app: App, lobbyMeta: Metadata, players: map<BasicId, Mate>, pid: BasicId, metadata: Metadata, birth: nat)
    requires InSync(app, lobbyMeta, players) && pid !in players
    ensures InSync(app, lobbyMeta, players[pid := Mate(metadata, birth, false)])
    ensures Others(players[pid := Mate(metadata, birth, false)]) == Others(players)[pid := Remote(metadata, birth)]
  {
    var after := players[pid := Mate(metadata, birth, false)];
    forall p ensures SyncAt(app, lobbyMeta, after, p) {
      assert SyncAt(app, lobbyMeta, players, p);
    }
  }

  lemma EndingKeepsSync(app: App, lobbyMeta: Metadata, players: map<BasicId, Mate>, reason: Kick)
    requires InSync(app, lobbyMeta, players)
    ensures InSync(Absorb(app, Ended(reason)), lobbyMeta, map[]) && Honest(app, Ended(reason))
  {
    var nobody: map<BasicId, Mate> := map[];
    forall p ensures SyncAt(Absorb(app, Ended(reason)), lobbyMeta, nobody, p) {
      assert SyncAt(app, lobbyMeta, players, p);
    }
  }

  /** Halfway through announcing a player: the application has heard of all its fields but those in `rest`. */
  ghost predicate Announcing(app: App, lobbyMeta: Metadata, players: map<BasicId, Mate>, pid: BasicId, rest: set<Text>)
    requires pid in players
  {
    && InSync(app.(players := app.players - {pid}), lobbyMeta, players)
    && Known(app, pid) == players[pid].metadata - rest
  }

  lemma AnnouncingStarts(app: App, lobbyMeta: Metadata, players: map<BasicId, Mate>, pid: BasicId)
    requires InSync(app, lobbyMeta, players) && pid in players && !players[pid].announced
    ensures Announcing(app, lobbyMeta, players, pid, players[pid].metadata.Keys)
  {
    assert SyncAt(app, lobbyMeta, players, pid);
    var trimmed := app.(players := app.players - {pid});
    forall p ensures SyncAt(trimmed, lobbyMeta, players, p) {
      assert SyncAt(app, lobbyMeta, players, p);
    }
    assert players[pid].metadata - players[pid].metadata.Keys == map[];
  }

  lemma AnnouncingGoesOn(
      app: App, lobbyMeta: Metadata, players: map<BasicId, Mate>, pid: BasicId, rest: set<Text>, key: Text)
    requires pid in players && !players[pid].announced && Announcing(app, lobbyMeta, players, pid, rest)
    requires key in rest && rest <= players[pid].metadata.Keys
    ensures var cb := PlayerMetaChanged(pid, Diff(key, None, Some(players[pid].metadata[key])));
      Honest(app, cb) && Announcing(Absorb(app, cb), lobbyMeta, players, pid, rest - {key})
  {
    var metadata := players[pid].metadata;
    var cb := PlayerMetaChanged(pid, Diff(key, None, Some(metadata[key])));
    assert Absorb(app, cb).players - {pid} == app.players - {pid};
    assert (metadata - rest)[key := metadata[key]] == metadata - (rest - {key});
  }

  lemma AnnouncingEnds(app: App, lobbyMeta: Metadata, players: map<BasicId, Mate>, pid: BasicId)
    requires pid in players && !players[pid].announced && Announcing(app, lobbyMeta, players, pid, {}) && app.arrived
    ensures Honest(app, PlayerJoined(pid))
    ensures InSync(Absorb(app, PlayerJoined(pid)), lobbyMeta, players[pid := players[pid].(announced := true)])
    ensures Others(players[pid := players[pid].(announced := true)]) == Others(players)
  {
    var trimmed := app.(players := app.players - {pid});
    assert SyncAt(trimmed, lobbyMeta, players, pid);
    assert players[pid].metadata - {} == players[pid].metadata;
    var after := players[pid := players[pid].(announced := true)];
    forall p ensures SyncAt(Absorb(app, PlayerJoined(pid)), lobbyMeta, after, p) {
      assert SyncAt(trimmed, lobbyMeta, players, p);
    }
  }

  lemma NothingKnown(lobbyMeta: Metadata)
    ensures InSync(App(lobbyMeta, map[], {}, false, false), lobbyMeta, map[])
  {
    var app := App(lobbyMeta, map[], {}, false, false);
    var nobody: map<BasicId, Mate> := map[];
    forall p ensures SyncAt(app, lobbyMeta, nobody, p) {
    }
  }

  function Others(players: map<BasicId, Mate>): map<BasicId, Remote> {
    map p | p in players :: if p in players then Remote(players[p].metadata, players[p].birth) else NOBODY
  }

  lemma OthersRemain(players: map<BasicId, Mate>, remaining: set<BasicId>)
    ensures Others(players - (players.Keys - remaining)) == Others(players) - (Others(players).Keys - remaining)
  {
  }

  /** The callbacks for players who are found to be gone, in the order of `order`. */
  function Departures(order: seq<BasicId>): seq<Callback> {
    if order == [] then [] else Departures(order[..|order| - 1]) + [PlayerLeft(order[|order| - 1], OK)]
  }

  lemma OneMoreDeparture(order: seq<BasicId>, pid: BasicId)
    ensures Departures(order + [pid]) == Departures(order) + [PlayerLeft(pid, OK)]
  {
    assert (order + [pid])[..|order|] == order;
  }

  predicate WellFormed(m: ServerMessage) {
    m.Joined? ==> m.pid != NULL
  }

  const OK := Natural("ok", "Graceful disconnection")
  const ICE_FAILED := Natural("ice_failed", "Could not establish a P2P connection")

  predicate Ends(dying: bool, messages: seq<ServerMessage>) {
    dying || exists m :: m in messages && m.Disconnected?
  }

  predicate Begun(cooking: bool, messages: seq<ServerMessage>) {
    cooking || exists m :: m in messages && m.Connected?
  }

  /** The reason of the last farewell, if one has come. */
  function ReasonGiven(reason: Kick, messages: seq<ServerMessage>): Kick {
    if messages == [] then reason
    else
      var last := messages[|messages| - 1];
      if last.Disconnected? then last.reason else ReasonGiven(reason, messages[..|messages| - 1])
  }

  class Library {
    ghost const start: App
    ghost var app: App
    ghost var states: seq<App>
    var log: seq<Callback>
    var online: bool
    var cooking: bool
    var dying: bool
    var arrived: bool
    var ready: bool
    var byeReason: Kick
    var ourPid: BasicId
    var ourLid: BasicId
    var ourBirth: nat
    var listed: bool
    var maxPlayers: nat
    var lobbyMeta: Metadata
    var master: BasicId
    var players: map<BasicId, Mate>

    /** `app` is what an application that began with `start` holds, and it has been told the truth. */
    ghost predicate Truthful()
      reads this
    {
      Chronicle(start, app, states, log)
    }

    ghost predicate Valid()
      reads this
    {
      && Truthful() && InSync(app, lobbyMeta, players) && app.arrived == arrived && app.ready == ready
      && NULL !in players && (!cooking ==> ourPid == NULL)
    }

    function View(): Shadow
      reads this
    {
      Shadow(ourPid, ourLid, ourBirth, listed, maxPlayers, lobbyMeta, master, Others(players))
    }

    /** A library that has just opened its socket; the application knows the lobby fields it has set itself. */
    constructor (lobbyMeta: Metadata)
      ensures Valid() && players == map[] && log == [] && online && !cooking && !dying
      ensures app == start == App(lobbyMeta, map[], {}, false, false)
    {
      start, app := App(lobbyMeta, map[], {}, false, false), App(lobbyMeta, map[], {}, false, false);
      states := [App(lobbyMeta, map[], {}, false, false)];
      log := [];
      online, cooking, dying, arrived, ready := true, false, false, false, false;
      byeReason := OK;
      ourPid, ourLid, ourBirth, listed, maxPlayers, master := NULL, NULL, 0, true, 0, NULL;
      this.lobbyMeta := lobbyMeta;
      players := map[];
      NothingKnown(lobbyMeta);
    }

    function GetPlayerId(): BasicId
      reads this
    {
      if cooking then ourPid else NULL
    }

    predicate IsPlayerInLobby(pid: BasicId)
      reads this
    {
      pid != NULL && online && (pid == GetPlayerId() || pid in players)
    }

    /** Another player of the lobby, whose fields the server's messages change. */
    predicate IsMate(pid: BasicId)
      reads this
    {
      IsPlayerInLobby(pid) && pid != GetPlayerId()
    }

    /** The callbacks that a message is to make; those of a pong come in no set order. */
    function News(m: ServerMessage): seq<Callback>
      reads this
    {
      match m
      case SetPlayerMeta(pid, key, value) =>
        if IsMate(pid) && players[pid].announced && Lookup(players[pid].metadata, key) != Some(value)
        then [PlayerMetaChanged(pid, Diff(key, Lookup(players[pid].metadata, key), Some(value)))] else []
      case ErasePlayerMeta(pid, key) =>
        if IsMate(pid) && key in players[pid].metadata
        then [PlayerMetaChanged(pid, Diff(key, Some(players[pid].metadata[key]), None))] else []
      case SetLobbyMeta(key, value) =>
        if Lookup(lobbyMeta, key) == Some(value) then []
        else [LobbyMetaChanged(Diff(key, Lookup(lobbyMeta, key), Some(value)))]
      case EraseLobbyMeta(key) =>
        if key in lobbyMeta then [LobbyMetaChanged(Diff(key, Some(lobbyMeta[key]), None))] else []
      case SetMaster(pid) => if pid == master then [] else [MasterChanged(master)]
      case Left(pid, reason) => if pid in players then [PlayerLeft(pid, reason)] else []
      case List(list) => [LobbiesFound(list)]
      case _ => []
    }

    method Fire(cb: Callback)
      requires Truthful() && Honest(app, cb)
      modifies this`log, this`app, this`states
      ensures Truthful() && log == old(log) + [cb] && app == Absorb(old(app), cb)
    {
      OneMoreCallback(start, app, states, log, cb);
      log, app, states := log + [cb], Absorb(app, cb), states + [Absorb(app, cb)];
    }

    // Handlers.

    method OnSetPlayerMeta(pid: BasicId, key: Text, value: Text)
      requires Valid()
      modifies this`players, this`log, this`app, this`states
      ensures Valid()
      ensures online ==> View() == Apply(old(View()), SetPlayerMeta(pid, key, value))
      ensures log == old(log) +
        if old(IsMate(pid)) && old(players)[pid].announced && Lookup(old(players)[pid].metadata, key) != Some(value)
        then [PlayerMetaChanged(pid, Diff(key, Lookup(old(players)[pid].metadata, key), Some(value)))] else []
    {
      if !IsMate(pid) {
        return;
      }
      var mate := players[pid];
      var before := Lookup(mate.metadata, key);
      SetRefines(players, View(), pid, key, value);
      SetKeepsSync(app, lobbyMeta, players, pid, key, value);
      if before != Some(value) {
        players := players[pid := mate.(metadata := mate.metadata[key := value])];
        if mate.announced {
          Fire(PlayerMetaChanged(pid, Diff(key, before, Some(value))));
        }
      }
    }

    method OnErasePlayerMeta(pid: BasicId, key: Text)
      requires Valid()
      modifies this`players, this`log, this`app, this`states
      ensures Valid()
      ensures online ==> View() == Apply(old(View()), ErasePlayerMeta(pid, key))
      ensures log == old(log) +
        if old(IsMate(pid)) && key in old(players)[pid].metadata
        then [PlayerMetaChanged(pid, Diff(key, Some(old(players)[pid].metadata[key]), None))] else []
    {
      if !IsMate(pid) {
        return;
      }
      var mate := players[pid];
      EraseRefines(players, View(), pid, key);
      EraseKeepsSync(app, lobbyMeta, players, pid, key);
      if key in mate.metadata {
        Fire(PlayerMetaChanged(pid, Diff(key, Some(mate.metadata[key]), None)));
        players := players[pid := mate.(metadata := mate.metadata - {key})];
      }
    }

    method OnSetLobbyMeta(key: Text, value: Text)
      requires Valid()
      modifies this`lobbyMeta, this`log, this`app, this`states
      ensures Valid()
      ensures View() == Apply(old(View()), SetLobbyMeta(key, value))
      ensures log == old(log) + if Lookup(old(lobbyMeta), key) == Some(value) then []
                                else [LobbyMetaChanged(Diff(key, Lookup(old(lobbyMeta), key), Some(value)))]
    {
      var before := Lookup(lobbyMeta, key);
      if before != Some(value) {
        LobbyChangeKeepsSync(app, lobbyMeta, players, Diff(key, before, Some(value)));
        lobbyMeta := lobbyMeta[key := value];
        Fire(LobbyMetaChanged(Diff(key, before, Some(value))));
      }
    }

    method OnEraseLobbyMeta(key: Text)
      requires Valid()
      modifies this`lobbyMeta, this`log, this`app, this`states
      ensures Valid()
      ensures View() == Apply(old(View()), EraseLobbyMeta(key))
      ensures log == old(log) + if key in old(lobbyMeta)
                                then [LobbyMetaChanged(Diff(key, Some(old(lobbyMeta)[key]), None))] else []
    {
      if key in lobbyMeta {
        LobbyChangeKeepsSync(app, lobbyMeta, players, Diff(key, Some(lobbyMeta[key]), None));
        Fire(LobbyMetaChanged(Diff(key, Some(lobbyMeta[key]), None)));
        lobbyMeta := lobbyMeta - {key};
      }
    }

    method OnLeft(pid: BasicId, reason: Kick)
      requires Valid()
      modifies this`players, this`log, this`app, this`states
      ensures Valid()
      ensures View() == Apply(old(View()), Left(pid, reason))
      ensures players == old(players) - {pid}
      ensures log == old(log) + if pid in old(players) then [PlayerLeft(pid, reason)] else []
    {
      LeavingKeepsSync(app, lobbyMeta, players, pid, reason);
      if pid in players {
        Fire(PlayerLeft(pid, reason));
        players := players - {pid};
      }
    }

    /** Everyone the pong does not list is gone; `order` is the order in which that is found. */
    method OnPong(remaining: set<BasicId>) returns (ghost order: seq<BasicId>)
      requires Valid()
      modifies this`players, this`log, this`app, this`states
      ensures Valid()
      ensures View() == Apply(old(View()), Pong(remaining))
      ensures Enumerates(order, old(players).Keys - remaining) && log == old(log) + Departures(order)
    {
      var gone := players.Keys - remaining;
      ghost var all := gone;
      order := [];
      assert old(players) - (all - gone) == players;
      while gone != {}
        invariant gone <= all && Enumerates(order, all - gone)
        invariant players == old(players) - (all - gone)
        invariant Valid() && log == old(log) + Departures(order)
      {
        var pid :| pid in gone;
        OnLeft(pid, OK);
        OneMoreInOrder(order, all, gone, pid);
        OneMoreDeparture(order, pid);
        assert old(players) - (all - gone) - {pid} == old(players) - (all - (gone - {pid}));
        gone, order := gone - {pid}, order + [pid];
      }
      assert all - gone == all;
      OthersRemain(old(players), remaining);
    }

    method OnJoined(pid: BasicId, metadata: Metadata, birth: nat)
      requires Valid() && pid != NULL
      modifies this`players
      ensures Valid()
      ensures View() == Apply(old(View()), Joined(pid, metadata, birth))
      ensures players == if pid in old(players) then old(players) else old(players)[pid := Mate(metadata, birth, false)]
    {
      if pid !in players {
        JoiningKeepsSync(app, lobbyMeta, players, pid, metadata, birth);
        players := players[pid := Mate(metadata, birth, false)];
      }
    }

    method OnSetMaster(pid: BasicId)
      requires Valid()
      modifies this`master, this`log, this`app, this`states
      ensures Valid() && old(log) <= log
      ensures View() == Apply(old(View()), SetMaster(pid))
      ensures log == if pid == old(master) then old(log) else old(log) + [MasterChanged(old(master))]
    {
      var before := master;
      master := pid;
      if before != master {
        NewsKeepsSync(app, lobbyMeta, players, MasterChanged(before));
        Fire(MasterChanged(before));
      }
    }

    /** Messages that only set variables. */
    method HandleSetting(m: ServerMessage)
      requires Valid() && (m.Connected? || m.Disconnected? || m.SetListed? || m.SetCapacity?)
      modifies this`ourPid, this`ourLid, this`ourBirth, this`cooking, this`byeReason, this`dying
      modifies this`listed, this`maxPlayers
      ensures Valid() && dying == (old(dying) || m.Disconnected?) && cooking == (old(cooking) || m.Connected?)
      ensures byeReason == if m.Disconnected? then m.reason else old(byeReason)
      ensures View() == Apply(old(View()), m)
    {
      match m
      case Connected(pid, lid, birth) => ourPid, ourLid, ourBirth, cooking := pid, lid, birth, true;
      case Disconnected(reason) => byeReason, dying := reason, true;
      case SetListed(l) => listed := l;
      case SetCapacity(capacity) => maxPlayers := capacity;
    }

    /** A change of one field of metadata. */
    method HandleField(m: ServerMessage)
      requires Valid() && (m.SetPlayerMeta? || m.ErasePlayerMeta? || m.SetLobbyMeta? || m.EraseLobbyMeta?)
      modifies this`players, this`lobbyMeta, this`log, this`app, this`states
      ensures Valid() && log == old(log) + old(News(m))
      ensures online ==> View() == Apply(old(View()), m)
    {
      match m
      case SetPlayerMeta(pid, key, value) => OnSetPlayerMeta(pid, key, value);
      case ErasePlayerMeta(pid, key) => OnErasePlayerMeta(pid, key);
      case SetLobbyMeta(key, value) => OnSetLobbyMeta(key, value);
      case EraseLobbyMeta(key) => OnEraseLobbyMeta(key);
    }

    /** A player comes, goes, or turns out to have gone. */
    method HandlePlayers(m: ServerMessage)
      requires Valid() && WellFormed(m) && (m.Joined? || m.Left? || m.Pong?)
      modifies this`players, this`log, this`app, this`states
      ensures Valid() && View() == Apply(old(View()), m)
      ensures Reported(old(log), old(News(m)), old(players).Keys, m)
    {
      match m
      case Joined(pid, metadata, birth) => OnJoined(pid, metadata, birth);
      case Left(pid, reason) => OnLeft(pid, reason);
      case Pong(remaining) =>
        var order := OnPong(remaining);
    }

    /** The message has made its callbacks, and no other. */
    ghost predicate Reported(before: seq<Callback>, news: seq<Callback>, known: set<BasicId>, m: ServerMessage)
      reads this
    {
      if m.Pong? then exists order :: Enumerates(order, known - m.players) && log == before + Departures(order)
      else log == before + news
    }

    /** One message from the server. */
    method Handle(m: ServerMessage)
      requires Valid() && WellFormed(m)
      modifies this
      ensures Valid() && Reported(old(log), old(News(m)), old(players).Keys, m)
      ensures online == old(online) && dying == (old(dying) || m.Disconnected?)
      ensures cooking == (old(cooking) || m.Connected?)
      ensures byeReason == if m.Disconnected? then m.reason else old(byeReason)
      ensures online ==> View() == Apply(old(View()), m)
    {
      match m
      case SetPlayerMeta(_, _, _) => HandleField(m);
      case ErasePlayerMeta(_, _) => HandleField(m);
      case SetLobbyMeta(_, _) => HandleField(m);
      case EraseLobbyMeta(_) => HandleField(m);
      case SetMaster(pid) => OnSetMaster(pid);
      case Joined(_, _, _) => HandlePlayers(m);
      case Left(_, _) => HandlePlayers(m);
      case Pong(_) => HandlePlayers(m);
      case List(list) =>
        NewsKeepsSync(app, lobbyMeta, players, LobbiesFound(list));
        Fire(LobbiesFound(list));
      case Relayed(_, _) =>
      case _ => HandleSetting(m);
    }

    method Disconnect()
      requires Valid()
      modifies this
      ensures Valid() && old(log) + [Ended(old(byeReason))] == log
      ensures View() == Shadow(NULL, NULL, 0, listed, 0, lobbyMeta, NULL, map[]) && lobbyMeta == old(lobbyMeta)
      ensures !online && !cooking && !dying
    {
      DropPlayers();
      dying, cooking, online, byeReason := false, false, false, OK;
      ourBirth, maxPlayers, ourPid, master, ourLid := 0, 0, NULL, NULL, NULL;
    }

    method DropPlayers()
      requires Valid()
      modifies this`players, this`arrived, this`ready, this`log, this`app, this`states
      ensures Valid() && old(log) + [Ended(byeReason)] == log && players == map[]
    {
      EndingKeepsSync(app, lobbyMeta, players, byeReason);
      players, ready, arrived := map[], false, false;
      Fire(Ended(byeReason));
    }

    /** The fields of a player, one callback each, and then the player itself. */
    method Announce(pid: BasicId)
      requires Valid() && pid in players && arrived
      modifies this`players, this`log, this`app, this`states
      ensures Valid() && old(log) <= log
      ensures players == old(players)[pid := old(players)[pid].(announced := true)]
      ensures !old(players)[pid].announced ==> log != [] && log[|log| - 1] == PlayerJoined(pid)
      ensures old(players)[pid].announced ==> log == old(log)
      ensures Others(players) == old(Others(players))
    {
      if players[pid].announced {
        return;
      }
      var metadata := players[pid].metadata;
      var rest := metadata.Keys;
      AnnouncingStarts(app, lobbyMeta, players, pid);
      while rest != {}
        invariant rest <= metadata.Keys && players == old(players)
        invariant old(log) <= log && Truthful() && Announcing(app, lobbyMeta, players, pid, rest)
        invariant app.arrived == arrived && app.ready == ready
      {
        var key :| key in rest;
        AnnouncingGoesOn(app, lobbyMeta, players, pid, rest, key);
        Fire(PlayerMetaChanged(pid, Diff(key, None, Some(metadata[key]))));
        rest := rest - {key};
      }
      AnnouncingEnds(app, lobbyMeta, players, pid);
      Fire(PlayerJoined(pid));
      players := players[pid := players[pid].(announced := true)];
    }

    method HandleAll(messages: seq<ServerMessage>)
      requires Valid() && forall m :: m in messages ==> WellFormed(m)
      modifies this
      ensures Valid() && old(log) <= log && online == old(online)
      ensures dying == Ends(old(dying), messages)
      ensures cooking == Begun(old(cooking), messages)
      ensures byeReason == ReasonGiven(old(byeReason), messages)
      ensures online ==> View() == Fold(old(View()), messages)
    {
      var i := 0;
      assert messages[..0] == [];
      while i < |messages|
        invariant 0 <= i <= |messages| && Valid() && old(log) <= log
        invariant online == old(online)
        invariant dying == Ends(old(dying), messages[..i])
        invariant cooking == Begun(old(cooking), messages[..i])
        invariant byeReason == ReasonGiven(old(byeReason), messages[..i])
        invariant online ==> View() == Fold(old(View()), messages[..i])
      {
        FoldConcat(old(View()), messages[..i], [messages[i]]);
        FoldOne(Fold(old(View()), messages[..i]), messages[i]);
        assert messages[..i + 1] == messages[..i] + [messages[i]];
        assert messages[..i + 1][..i] == messages[..i];
        Handle(messages[i]);
        i := i + 1;
      }
      assert messages[..i] == messages;
    }

    /** The connection is closed, and the application has been told so last. */
    ghost predicate Over()
      reads this
    {
      !online && players == map[] && log != [] && log[|log| - 1].Ended?
    }

    /** A player could not be reached in spite of everything. */
    method GiveUp()
      requires Valid()
      modifies this
      ensures Valid() && Over() && log == old(log) + [Ended(ICE_FAILED)]
    {
      byeReason := ICE_FAILED;
      Disconnect();
    }

    /** Once all direct connections stand, the application is told, once. */
    method AnnounceReady(linked: bool)
      requires Valid() && (cooking ==> arrived)
      modifies this`ready, this`log, this`app, this`states
      ensures Valid() && ready == (old(ready) || (online && cooking && linked))
      ensures log == old(log) + if ready && !old(ready) then [Ready] else []
    {
      if online && cooking && linked && !ready {
        ready := true;
        NewsKeepsSync(app, lobbyMeta, players, Ready);
        Fire(Ready);
      }
    }

    /**
     * One round of the library: the messages that have come in, then, in a lobby, the players not announced yet.
     * `quits` are the players to whom no connection could be made in spite of everything.
     */
    method Update(messages: seq<ServerMessage>, quits: set<BasicId>, linked: bool)
      requires Valid() && forall m :: m in messages ==> WellFormed(m)
      modifies this
      ensures Valid() && old(log) <= log
      ensures Ends(old(dying), messages) ==>
        Over() && log[|log| - 1] == Ended(ReasonGiven(old(byeReason), messages))
      ensures old(online) && !Ends(old(dying), messages) ==>
        var view := Fold(old(View()), messages);
        if Begun(old(cooking), messages) && (exists p :: p in quits && p in view.others)
        then Over() && log[|log| - 1] == Ended(ICE_FAILED)
        else
          && View() == view && online
          && (Begun(old(cooking), messages) ==>
               (forall p :: p in players ==> players[p].announced) && (linked ==> ready))
    {
      HandleAll(messages);
      if dying {
        Disconnect();
        return;
      }
      var gaveUp := Arrive(quits);
      if gaveUp {
        GiveUp();
        return;
      }
      AnnounceReady(linked);
    }

    method Arrive(quits: set<BasicId>) returns (gaveUp: bool)
      requires Valid()
      modifies this`players, this`log, this`app, this`states, this`arrived
      ensures Valid() && old(log) <= log
      ensures gaveUp <==> cooking && exists p :: p in quits && p in players
      ensures Others(players) == old(Others(players))
      ensures cooking ==> arrived
      ensures !gaveUp && cooking ==> forall p :: p in players ==> players[p].announced
    {
      gaveUp := false;
      if cooking {
        if !arrived {
          arrived := true;
          NewsKeepsSync(app, lobbyMeta, players, Arrived);
          Fire(Arrived);
        }
        gaveUp := AnnounceAll(quits);
      }
    }

    /** Announces players until one comes up to whom no connection could be made, if there is one. */
    method AnnounceAll(quits: set<BasicId>) returns (gaveUp: bool)
      requires Valid() && arrived
      modifies this`players, this`log, this`app, this`states
      ensures Valid() && old(log) <= log
      ensures gaveUp <==> exists p :: p in quits && p in players
      ensures Others(players) == old(Others(players))
      ensures !gaveUp ==> forall p :: p in players ==> players[p].announced
    {
      var rest := players.Keys;
      while rest != {}
        invariant rest <= players.Keys && Valid() && old(log) <= log
        invariant Others(players) == old(Others(players))
        invariant forall p :: p in players && p !in rest ==> players[p].announced && p !in quits
      {
        var pid :| pid in rest;
        Announce(pid);
        if pid in quits {
          return true;
        }
        rest := rest - {pid};
      }
      return false;
    }
  }

  // A field the application never heard of.

  const NICKNAME: Text := [110]

  /**
   * What two messages of one round come to: the library reports a field as erased that it has never reported as set.
   */
  method EraseBeforeAnnouncing() returns (library: Library)
    ensures fresh(library) && library.Valid()
    ensures library.log == [PlayerMetaChanged(2, Diff(NICKNAME, Some([]), None))]
    ensures Known(library.start, 2) == map[] && library.app == Absorb(library.start, library.log[0])
    ensures library.log[0].diff.before != Lookup(Known(library.start, 2), NICKNAME)
  {
    library := new Library(map[]);
    library.HandleSetting(Connected(1, 1, 0));
    assert library.GetPlayerId() == 1 by {
      assert library.View().self == 1;
    }
    library.OnJoined(2, map[NICKNAME := []], 0);
    library.OnErasePlayerMeta(2, NICKNAME);
    assert library.log == [PlayerMetaChanged(2, Diff(NICKNAME, Some([]), None))];
    FirstCallback(library.start, library.app, library.states, library.log);
  }

  lemma FirstCallback(start: App, app: App, states: seq<App>, log: seq<Callback>)
    requires Chronicle(start, app, states, log) && |log| == 1
    ensures app == Absorb(start, log[0])
  {
    assert TruthAt(start, app, states, log, 0);
  }
}
