/** What holds in every state of every run, and over any stretch of one. */
module Runs {
  import opened Basics
  import opened Server
  import opened ServerInvariants
  import opened Replica
  import opened System
  import opened Ownership
  import opened Conservation
  import opened Budget
  import opened Agreement
  import opened Pongs
  import opened Sizes

  ghost predicate Sound(y: System) {
    Disciplined(y) && Counted(y) && Budgeted(y) && Agreeing(y) && PongOk(y) && SizesOk(y)
  }

  lemma StartSound(y: System)
    requires y == START
    ensures Sound(y)
  {
    StartDisciplined();
    StartCounted();
  }

  lemma FireKeepsSound(y: System, ev: Event)
    requires Sound(y) && Enabled(y, ev)
    ensures Sound(Fire(y, ev))
  {
    FireKeepsDiscipline(y, ev);
    FireKeepsCounts(y, ev);
    FireKeepsBudgets(y, ev);
    FireKeepsAgreement(y, ev);
    FireKeepsPongs(y, ev);
    FireKeepsSizes(y, ev);
  }

  lemma NextKeepsSound(y: System, z: System)
    requires Sound(y) && Next(y, z)
    ensures Sound(z)
  {
    var ev :| Enabled(y, ev) && z == Fire(y, ev);
    FireKeepsSound(y, ev);
  }

  lemma SoundGoesOn(y: System, z: System, run: seq<System>, i: nat)
    requires IsRun(run) && i + 1 < |run| && y == run[i] && z == run[i + 1] && Sound(y)
    ensures Sound(z)
  {
    assert NextAt(run, i);
    NextKeepsSound(y, z);
  }

  lemma {:induction false} RunsAreSound(run: seq<System>, i: nat, y: System)
    requires IsRun(run) && i < |run| && y == run[i]
    ensures Sound(y)
  {
    if i == 0 {
      StartSound(y);
    } else {
      RunsAreSound(run, i - 1, run[i - 1]);
      SoundGoesOn(run[i - 1], y, run, i - 1);
    }
  }

  /**
   * Replica agreement. Take any moment of any run and any client whose player is in a lobby and whose queue has
   * never overflowed: applying everything still on its way to it, in order, yields exactly the server's view of
   * its lobby, provided no lobby field left over from before was unknown to the lobby when it came in. Left-over
   * fields disturb nothing but the lobby's metadata. When a farewell is among what is on its way to a player whose
   * removal is still to be served, what is queued behind it is counted in too, although the session, which stops on
   * writing the farewell, will never write that: the agreement is then about what was sent, not what will be read.
   */
  lemma ReplicasAgree(run: seq<System>, i: nat, sid: Sid, p: BasicId)
    requires IsRun(run) && i < |run| && InTouch(run[i], sid, p)
    ensures Seated(run[i].server, p)
    ensures var foretold, view := Foretold(run[i], sid), View(run[i].server, p);
      && foretold.(lobbyMeta := view.lobbyMeta) == view
      && (run[i].conns[sid].clean ==> foretold == view)
  {
    RunsAreSound(run, i, run[i]);
    assert Seated(run[i].server, p);
  }

  /** A client with nothing on its way holds the view already. */
  lemma QuietReplicasAgree(run: seq<System>, i: nat, sid: Sid, p: BasicId)
    requires IsRun(run) && i < |run| && InTouch(run[i], sid, p) && run[i].conns[sid].clean
    requires Pipeline(run[i], sid) == []
    ensures Seated(run[i].server, p) && run[i].conns[sid].client == View(run[i].server, p)
  {
    ReplicasAgree(run, i, sid, p);
  }

  /** A reading client takes out of its replica, by a pong, only players who have left, unless its own has. */
  lemma PongsAreSafe(run: seq<System>, i: nat, sid: Sid, players: set<BasicId>, q: BasicId)
    requires IsRun(run) && i < |run|
    requires sid in run[i].conns && run[i].conns[sid].wire != [] && run[i].conns[sid].wire[0] == Pong(players)
    requires q in run[i].conns[sid].client.others && q in run[i].server.players
    ensures q !in Apply(run[i].conns[sid].client, Pong(players)).others <==> players == {}
    ensures players == {} ==> exists p :: Holds(run[i].conns[sid], p) && p !in run[i].server.players
  {
    RunsAreSound(run, i, run[i]);
    PongRemovesOnlyTheDeparted(run[i], sid, players);
    assert Fire(run[i], Take(sid)).conns[sid].client == Apply(run[i].conns[sid].client, Pong(players));
  }

  /** In every reachable state the lobbies, players, sessions and peers of the server are bounded by one another. */
  lemma RunsConserve(run: seq<System>, i: nat)
    requires IsRun(run) && i < |run|
    ensures var s := run[i].server;
      && |s.lobbies| <= |s.players| <= TotalSessions(s.peers) <= GLOBAL_SESSIONS_CAP
      && TotalSessions(s.peers) == |run[i].open| && |s.peers| <= GLOBAL_PEERS_CAP
      && forall ip :: ip in s.peers && s.peers[ip].sessions.Active? ==>
           1 <= s.peers[ip].sessions.count == |OpenFrom(run[i], ip)| <= SESSIONS_PER_IP_CAP
  {
    RunsAreSound(run, i, run[i]);
    ConservationChain(run[i]);
  }

  /** The one connection that holds a player: it serves the player or has asked for its removal. */
  ghost predicate SoleOwner(y: System, sid: Sid, p: BasicId) {
    && sid in y.conns && Holds(y.conns[sid], p)
    && (y.conns[sid].stage.Serving? || Doomed(Pending(y.channel, sid), p))
    && (forall other :: other in y.conns && Holds(y.conns[other], p) ==> other == sid)
  }

  /** Each player belongs to exactly one connection, whose removal request is still to come or on its way. */
  lemma PlayersAreOwned(run: seq<System>, i: nat, p: BasicId)
    requires IsRun(run) && i < |run| && p in run[i].server.players
    ensures exists sid :: SoleOwner(run[i], sid, p)
  {
    RunsAreSound(run, i, run[i]);
    assert OwnedBy(run[i], p);
    assert SoleOwner(run[i], run[i].owner[p], p);
  }

  /** Once every connection is gone and the channel is drained, nothing is left on the server but decaying peers. */
  lemma RunsLeakNothing(run: seq<System>, i: nat)
    requires IsRun(run) && i < |run| && Over(run[i])
    ensures run[i].server.players == map[] && run[i].server.lobbies == map[] && run[i].server.gidLobbies == map[]
    ensures forall ip :: ip in run[i].server.peers ==> run[i].server.peers[ip].sessions.Decaying?
  {
    RunsAreSound(run, i, run[i]);
    NothingLeaks(run[i]);
  }

  /** What an address has been let through and what it could still be let through at once. */
  function Claim(y: System, ip: Ip): real {
    CallsPassed(y.passed, ip) as real + Credit(y.server.peers, ip, y.now)
  }

  lemma StepClaim(run: seq<System>, i: nat, ip: Ip)
    requires IsRun(run) && i + 1 < |run|
    ensures run[i].now <= run[i + 1].now
    ensures Claim(run[i + 1], ip) <= Claim(run[i], ip) + RATE * (run[i + 1].now - run[i].now)
  {
    RunsAreSound(run, i, run[i]);
    assert NextAt(run, i);
    var ev :| Enabled(run[i], ev) && run[i + 1] == Fire(run[i], ev);
    FireCredit(run[i], ev, ip);
    FireKeepsBudgets(run[i], ev);
  }

  lemma {:induction false} StretchClaim(run: seq<System>, i: nat, j: nat, ip: Ip)
    requires IsRun(run) && i <= j < |run|
    ensures run[i].now <= run[j].now
    ensures Claim(run[j], ip) <= Claim(run[i], ip) + RATE * (run[j].now - run[i].now)
    decreases j - i
  {
    if i < j {
      StretchClaim(run, i, j - 1, ip);
      StepClaim(run, j - 1, ip);
    }
  }

  /**
   * The budget of an address over any stretch of any run: at most 4 + 2T listings, hostings and joinings pass in
   * T seconds, however often its peer is pruned and made anew with a fresh burst meanwhile.
   */
  lemma AddressBudget(run: seq<System>, i: nat, j: nat, ip: Ip)
    requires IsRun(run) && i <= j < |run|
    ensures (CallsPassed(run[j].passed, ip) - CallsPassed(run[i].passed, ip)) as real
      <= BURST + RATE * (run[j].now - run[i].now)
  {
    StretchClaim(run, i, j, ip);
    RunsAreSound(run, i, run[i]);
    RunsAreSound(run, j, run[j]);
    CreditBounds(run[i], ip);
    CreditBounds(run[j], ip);
  }

  /** Sizes in every reachable state: lobbies, metadata, and the player list of any client that lost no message. */
  lemma RunsStaySmall(run: seq<System>, i: nat)
    requires IsRun(run) && i < |run|
    ensures forall l :: l in run[i].server.lobbies ==> LobbySized(run[i].server.lobbies[l])
    ensures forall p :: p in run[i].server.players ==> |run[i].server.players[p].metadata| <= MAX_FIELDS
    ensures forall sid, p :: sid in run[i].conns && Holds(run[i].conns[sid], p) && p !in run[i].lossy ==>
      1 + |run[i].conns[sid].client.others| + 1 <= PLAYER_LIST_SLOTS
  {
    RunsAreSound(run, i, run[i]);
    forall sid, p | sid in run[i].conns && Holds(run[i].conns[sid], p) && p !in run[i].lossy
      ensures 1 + |run[i].conns[sid].client.others| + 1 <= PLAYER_LIST_SLOTS
    {
      PlayerListFits(run[i], sid, p);
    }
  }

  /** The step that admits a player never overflows its queue: its snapshot has at most 34 messages. */
  lemma AdmissionsAreWhole(run: seq<System>, i: nat, env: Env)
    requires IsRun(run) && i < |run| && CanServe(run[i], env)
    requires Step(run[i].server, run[i].channel[0].op, env).reply.Admitted?
    ensures var sent := SentTo(Step(run[i].server, run[i].channel[0].op, env).out, env.pid);
      |sent| <= 34 && env.pid !in Served(run[i], env).lossy
  {
    RunsAreSound(run, i, run[i]);
    AdmissionFits(run[i].server, run[i].channel[0].op, env);
    NewcomersLoseNothing(run[i], env);
  }
}
