/** How many lobbies an address may own and show, and the one operation that gets around the second limit. */
module HostingCaps {
  import opened Basics
  import opened Tokens
  import opened Server
  import opened ServerInvariants
  import opened ServerRuns

  const LISTED_LOBBIES_PER_IP := 1

  ghost predicate ListedCapped(s: State) {
    && (forall ip :: |ListedFrom(s, ip)| <= LISTED_LOBBIES_PER_IP)
    && (forall gid :: |ListedUnder(s, gid)| <= LISTED_LOBBIES_PER_GID)
  }

  /** Nothing is newly listed, and nothing listed changes hands. */
  ghost predicate ListsNoMore(s: State, t: State) {
    forall l :: l in t.lobbies ==>
      l in s.lobbies && t.lobbies[l].initiator == s.lobbies[l].initiator
        && (t.lobbies[l].listed ==> s.lobbies[l].listed)
  }

  lemma FewerListed(s: State, t: State)
    requires ListedCapped(s) && ListsNoMore(s, t)
    ensures ListedCapped(t)
  {
    forall ip ensures |ListedFrom(t, ip)| <= LISTED_LOBBIES_PER_IP {
      SubsetSize(ListedFrom(t, ip), ListedFrom(s, ip));
    }
    forall gid ensures |ListedUnder(t, gid)| <= LISTED_LOBBIES_PER_GID {
      SubsetSize(ListedUnder(t, gid), ListedUnder(s, gid));
    }
  }

  predicate Relists(op: Op) {
    op.SetListedOp? && op.listed
  }

  lemma AlterationListsNoMore(s: State, op: Op, now: real, t: State)
    requires IsAlteration(op) && !Relists(op) && t == Alteration(s, op, now).state
    ensures ListsNoMore(s, t)
  {
  }

  lemma FieldsListNoMore(s: State, op: Op, env: Env, t: State)
    requires EnvOk(s, op, env)
    requires op.SetPlayerMetaOp? || op.ErasePlayerMetaOp? || op.SetLobbyMetaOp? || op.EraseLobbyMetaOp?
    requires t == Step(s, op, env).state
    ensures ListsNoMore(s, t)
  {
  }

  lemma JoinListsNoMore(s: State, op: Op, env: Env)
    requires op.JoinLobby? && EnvOk(s, op, env)
    ensures ListsNoMore(s, Join(s, op, env).state)
  {
  }

  lemma RemoveListsNoMore(s: State, p: BasicId, reason: Kick, heir: BasicId, now: real)
    requires Linked(s)
    ensures ListsNoMore(s, Remove(s, p, reason, heir, now).state)
  {
  }

  lemma HostKeepsListed(s: State, op: Op, env: Env)
    requires ListedCapped(s) && op.HostLobby? && EnvOk(s, op, env)
    ensures ListedCapped(Host(s, op, env).state)
  {
    var s1 := ChargePeer(s, op.ip, env.now);
    if HostDenial(s, op, env.now).None? {
      HostedState(s1, op, env);
      var lid := LobbyId(op.gid, env.lid);
      var t := Host(s, op, env).state;
      assert t.lobbies == s.lobbies[lid := NewLobby(op, env.pid, env.now).(players := {env.pid})];
      OneMoreListed(s, t, lid);
    } else {
      FewerListed(s, s1);
    }
  }

  lemma OneMoreListed(s: State, t: State, lid: LobbyId)
    requires ListedCapped(s) && lid !in s.lobbies && lid in t.lobbies && t.lobbies == s.lobbies[lid := t.lobbies[lid]]
    requires t.lobbies[lid].listed ==>
      ListedFrom(s, t.lobbies[lid].initiator) == {} && |ListedUnder(s, lid.gid)| < LISTED_LOBBIES_PER_GID
    ensures ListedCapped(t)
  {
    forall ip ensures |ListedFrom(t, ip)| <= LISTED_LOBBIES_PER_IP {
      ListedFromOneMore(s, t, lid, ip);
    }
    forall gid ensures |ListedUnder(t, gid)| <= LISTED_LOBBIES_PER_GID {
      ListedUnderOneMore(s, t, lid, gid);
    }
  }

  lemma ListedFromOneMore(s: State, t: State, lid: LobbyId, ip: Ip)
    requires lid !in s.lobbies && lid in t.lobbies && t.lobbies == s.lobbies[lid := t.lobbies[lid]]
    ensures |ListedFrom(t, ip)| == |ListedFrom(s, ip)|
      + if t.lobbies[lid].listed && t.lobbies[lid].initiator == ip then 1 else 0
  {
    if t.lobbies[lid].listed && t.lobbies[lid].initiator == ip {
      assert ListedFrom(t, ip) == ListedFrom(s, ip) + {lid};
    } else {
      assert ListedFrom(t, ip) == ListedFrom(s, ip);
    }
  }

  lemma ListedUnderOneMore(s: State, t: State, lid: LobbyId, gid: GameId)
    requires lid !in s.lobbies && lid in t.lobbies && t.lobbies == s.lobbies[lid := t.lobbies[lid]]
    ensures |ListedUnder(t, gid)| == |ListedUnder(s, gid)| + if t.lobbies[lid].listed && lid.gid == gid then 1 else 0
  {
    if t.lobbies[lid].listed && lid.gid == gid {
      assert ListedUnder(t, gid) == ListedUnder(s, gid) + {lid};
    } else {
      assert ListedUnder(t, gid) == ListedUnder(s, gid);
    }
  }

  lemma StepKeepsListed(s: State, op: Op, env: Env)
    requires Linked(s) && ListedCapped(s) && EnvOk(s, op, env) && !Relists(op)
    ensures ListedCapped(Step(s, op, env).state)
  {
    if LeavesLobbies(op) {
      LobbiesLeft(s, op, env);
      FewerListed(s, Step(s, op, env).state);
    } else if op.HostLobby? {
      HostKeepsListed(s, op, env);
    } else if op.JoinLobby? {
      JoinListsNoMore(s, op, env);
      FewerListed(s, Join(s, op, env).state);
    } else if op.RemovePlayer? {
      RemoveListsNoMore(s, op.pid, op.reason, env.heir, env.now);
      FewerListed(s, Remove(s, op.pid, op.reason, env.heir, env.now).state);
    } else if IsAlteration(op) {
      AlterationListsNoMore(s, op, env.now, Alteration(s, op, env.now).state);
      FewerListed(s, Alteration(s, op, env.now).state);
    } else {
      FieldsListNoMore(s, op, env, Step(s, op, env).state);
      FewerListed(s, Step(s, op, env).state);
    }
  }

  lemma NothingListedYet()
    ensures ListedCapped(EMPTY)
  {
    assert forall ip :: ListedFrom(EMPTY, ip) == {};
    assert forall gid :: ListedUnder(EMPTY, gid) == {};
  }

  /**
   * The limits of hosting, in every run: an address owns at most four lobbies. If no lobby is ever listed after it
   * was made, an address shows at most one and a game at most 32.
   */
  lemma HostingLimits(r: ServerRun, i: nat)
    requires IsServerRun(r) && i < |r.states|
    ensures forall ip :: |LobbiesFrom(r.states[i], ip)| <= LOBBIES_PER_IP
    ensures (forall m :: m in r.moves[..i] ==> !Relists(m.op)) ==> ListedCapped(r.states[i])
  {
    ServerRunsAreValid(r, i, r.states[i]);
    if forall m :: m in r.moves[..i] ==> !Relists(m.op) {
      ListedLimits(r, i, r.states[i]);
    }
  }

  lemma {:induction false} ListedLimits(r: ServerRun, i: nat, s: State)
    requires IsServerRun(r) && i < |r.states| && s == r.states[i]
    requires forall m :: m in r.moves[..i] ==> !Relists(m.op)
    ensures ListedCapped(s)
  {
    if i == 0 {
      NothingListedYet();
    } else {
      assert r.moves[..i] == r.moves[..i - 1] + [r.moves[i - 1]];
      ListedLimits(r, i - 1, r.states[i - 1]);
      MoveKeepsListed(r, i - 1, s);
    }
  }

  lemma MoveKeepsListed(r: ServerRun, i: nat, t: State)
    requires IsServerRun(r) && i < |r.moves| && ListedCapped(r.states[i]) && !Relists(r.moves[i].op)
    requires t == r.states[i + 1]
    ensures ListedCapped(t)
  {
    ServerRunsAreValid(r, i, r.states[i]);
    assert MoveAt(r, i);
    StepKeepsListed(r.states[i], r.moves[i].op, r.moves[i].env);
  }

  // Listing a lobby after it was made.

  /** The request is granted and the lobby was not listed before. */
  predicate NewlyLists(s: State, initiator: BasicId, now: real) {
    IsMaster(s, initiator) && Allows(LobbyOf(s, initiator).alterations, now, 1) && !LobbyOf(s, initiator).listed
  }

  lemma RelistedState(s: State, initiator: BasicId, now: real)
    ensures var t := Alteration(s, SetListedOp(initiator, true), now).state;
      if NewlyLists(s, initiator, now) then
        var lid := s.players[initiator].lid;
        && lid in t.lobbies && t.lobbies == s.lobbies[lid := t.lobbies[lid]] && t.lobbies[lid].listed
        && t.lobbies[lid].initiator == s.lobbies[lid].initiator
      else ListsNoMore(s, t)
  {
  }

  /** Exactly when listing a lobby breaks the limits: its address shows one already, or its game 32. */
  lemma RelistingBreaksLimitsWhen(s: State, initiator: BasicId, now: real)
    requires ListedCapped(s)
    ensures !ListedCapped(Alteration(s, SetListedOp(initiator, true), now).state) <==>
      && NewlyLists(s, initiator, now)
      && (ListedFrom(s, LobbyOf(s, initiator).initiator) != {}
          || |ListedUnder(s, s.players[initiator].lid.gid)| >= LISTED_LOBBIES_PER_GID)
  {
    var t := Alteration(s, SetListedOp(initiator, true), now).state;
    RelistedState(s, initiator, now);
    if NewlyLists(s, initiator, now) {
      Relisted(s, t, s.players[initiator].lid);
    } else {
      FewerListed(s, t);
    }
  }

  lemma Relisted(s: State, t: State, lid: LobbyId)
    requires ListedCapped(s) && lid in s.lobbies && lid in t.lobbies && t.lobbies == s.lobbies[lid := t.lobbies[lid]]
    requires !s.lobbies[lid].listed && t.lobbies[lid].listed && t.lobbies[lid].initiator == s.lobbies[lid].initiator
    ensures !ListedCapped(t) <==>
      ListedFrom(s, s.lobbies[lid].initiator) != {} || |ListedUnder(s, lid.gid)| >= LISTED_LOBBIES_PER_GID
  {
    var ip, gid := s.lobbies[lid].initiator, lid.gid;
    assert ListedFrom(t, ip) == ListedFrom(s, ip) + {lid};
    assert ListedUnder(t, gid) == ListedUnder(s, gid) + {lid};
    forall other | other != ip ensures ListedFrom(t, other) == ListedFrom(s, other) {
    }
    forall other | other != gid ensures ListedUnder(t, other) == ListedUnder(s, other) {
    }
  }
}
