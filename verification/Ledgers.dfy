/** The budgets of lobbies, players and addresses, over runs: each a token bucket, and nothing is announced unpaid. */
module Ledgers {
  import opened Basics
  import opened Tokens
  import opened Server
  import opened ServerInvariants
  import opened EventLoop
  import opened ServerRuns

  datatype Account =
    | Alterations(lid: LobbyId)
    | LobbyFields(lid: LobbyId)
    | PlayerFields(pid: BasicId)
    | Address(ip: Ip)

  function Rate(a: Account): real {
    match a
    case Alterations(_) => 1.0
    case Address(_) => 2.0
    case _ => 4096.0
  }

  /** What an account holds at first; only that of an address is more than it refills to. */
  function Cap(a: Account): real {
    match a
    case Alterations(_) => 2.0
    case Address(_) => 4.0
    case _ => 8192.0
  }

  function Steady(a: Account): real {
    if a.Address? then 3.0 else Cap(a)
  }

  function Balance(s: State, a: Account): Option<Bucket> {
    match a
    case Alterations(l) => if l in s.lobbies then Some(s.lobbies[l].alterations) else None
    case LobbyFields(l) => if l in s.lobbies then Some(s.lobbies[l].metadataBudget) else None
    case PlayerFields(p) => if p in s.players then Some(s.players[p].metadataBudget) else None
    case Address(ip) => if ip in s.peers then Some(s.peers[ip].budget) else None
  }

  /** What an operation would take from an account. */
  function Asked(s: State, op: Op, a: Account): Option<nat> {
    match a
    case Alterations(l) =>
      if IsAlteration(op) && Entitled(s, op) && s.players[op.initiator].lid == l then Some(1) else None
    case LobbyFields(l) =>
      if op.SetLobbyMetaOp? && IsMaster(s, op.initiator) && s.players[op.initiator].lid == l
         && CanAdd(LobbyOf(s, op.initiator).metadata, op.key)
      then Some(|op.key| + |op.value|) else None
    case PlayerFields(p) =>
      if op.SetPlayerMetaOp? && op.pid == p && p in s.players && CanAdd(s.players[p].metadata, op.key)
      then Some(|op.key| + |op.value|) else None
    case Address(ip) =>
      if (op.ListLobbies? || op.HostLobby? || op.JoinLobby?) && op.ip == ip && ip in s.peers then Some(1) else None
  }

  /**
   * One step of the ledger: exactly what is asked for is taken, if it is allowed; no other step touches the account.
   */
  ghost predicate Booked(s: State, op: Op, now: real, a: Account, t: State) {
    Balance(s, a).Some? && Balance(t, a).Some? ==>
      Balance(t, a).value ==
      if Asked(s, op, a).Some? then Taken(Balance(s, a).value, now, Asked(s, op, a).value) else Balance(s, a).value
  }

  lemma UntouchedBooks(s: State, op: Op, now: real, a: Account, t: State)
    requires !a.Address? && !IsAlteration(op) && !op.SetLobbyMetaOp? && !op.SetPlayerMetaOp?
    requires forall l :: l in s.lobbies && l in t.lobbies ==>
      t.lobbies[l].alterations == s.lobbies[l].alterations && t.lobbies[l].metadataBudget == s.lobbies[l].metadataBudget
    requires forall p :: p in s.players && p in t.players ==> t.players[p].metadataBudget == s.players[p].metadataBudget
    ensures Booked(s, op, now, a, t)
  {
  }

  lemma AlterationBooked(s: State, op: Op, now: real, a: Account)
    requires IsAlteration(op) && !a.Address?
    ensures Booked(s, op, now, a, Alteration(s, op, now).state)
  {
  }

  lemma FieldsBooked(s: State, op: Op, now: real, a: Account)
    requires ChangesFields(op) && !a.Address?
    ensures Booked(s, op, now, a, FieldChange(s, op, now).state)
  {
  }

  lemma InsertLeavesBooks(s: State, lid: LobbyId, pid: BasicId, metadata: Metadata, env: Env)
    requires OrdersOk(s, lid, env) && pid !in s.players
    ensures var t := Insert(s, lid, pid, metadata, env).state;
      && t.lobbies == s.lobbies[lid := Entered(s.lobbies[lid], pid)]
      && pid in t.players && t.players == s.players[pid := t.players[pid]]
  {
  }

  lemma HostBooked(s: State, op: Op, env: Env, a: Account)
    requires EnvOk(s, op, env) && op.HostLobby? && !a.Address?
    ensures Booked(s, op, env.now, a, Host(s, op, env).state)
  {
    if HostDenial(s, op, env.now).None? {
      HostedAs(s, op, env);
    }
    UntouchedBooks(s, op, env.now, a, Host(s, op, env).state);
  }

  lemma JoinBooked(s: State, op: Op, env: Env, a: Account)
    requires EnvOk(s, op, env) && op.JoinLobby? && !a.Address?
    ensures Booked(s, op, env.now, a, Join(s, op, env).state)
  {
    if JoinDenial(s, op, env.now).None? {
      InsertLeavesBooks(ChargePeer(s, op.ip, env.now), op.lid, env.pid, op.playerMetadata, env);
    }
    UntouchedBooks(s, op, env.now, a, Join(s, op, env).state);
  }

  lemma RemoveBooked(s: State, p: BasicId, reason: Kick, heir: BasicId, now: real, a: Account)
    requires Linked(s) && !a.Address?
    ensures Booked(s, RemovePlayer(p, reason), now, a, Remove(s, p, reason, heir, now).state)
  {
    var t := Remove(s, p, reason, heir, now).state;
    if p in s.players {
      if Departed(LobbyOf(s, p), p, heir, now).master == NULL {
        RemovedLast(s, p, reason, heir, now);
      } else {
        RemovedOne(s, p, reason, heir, now);
      }
    }
    UntouchedBooks(s, RemovePlayer(p, reason), now, a, t);
  }

  lemma PeerBooked(s: State, op: Op, env: Env, a: Account)
    requires EnvOk(s, op, env) && a.Address?
    ensures var t := Step(s, op, env).state;
      && Booked(s, op, env.now, a, t)
      && (Balance(s, a).None? && Balance(t, a).Some? ==> Opens(a, Balance(t, a).value, env.now))
  {
    if LeavesPeers(op) {
      PeersLeft(s, op, env);
    } else if op.ListLobbies? || op.HostLobby? || op.JoinLobby? {
      PeersCharged(s, op, env);
    }
  }

  lemma StepBooks(s: State, op: Op, env: Env, a: Account)
    requires Linked(s) && EnvOk(s, op, env)
    ensures Booked(s, op, env.now, a, Step(s, op, env).state)
  {
    if a.Address? {
      PeerBooked(s, op, env, a);
    } else if LeavesLobbies(op) {
      LobbiesLeft(s, op, env);
      UntouchedBooks(s, op, env.now, a, Step(s, op, env).state);
    } else if IsAlteration(op) {
      AlterationBooked(s, op, env.now, a);
      assert Step(s, op, env) == Alteration(s, op, env.now);
    } else if ChangesFields(op) {
      FieldsBooked(s, op, env.now, a);
      assert Step(s, op, env) == FieldChange(s, op, env.now);
    } else if op.HostLobby? {
      HostBooked(s, op, env, a);
      assert Step(s, op, env) == Host(s, op, env);
    } else if op.JoinLobby? {
      JoinBooked(s, op, env, a);
      assert Step(s, op, env) == Join(s, op, env);
    } else {
      RemoveBooked(s, op.pid, op.reason, env.heir, env.now, a);
      assert Step(s, op, env) == Remove(s, op.pid, op.reason, env.heir, env.now);
    }
  }

  // New accounts.

  predicate Opens(a: Account, b: Bucket, now: real) {
    b.tokens == Cap(a) && b.max == Steady(a) && b.rate == Rate(a) && b.lastRefill == now
  }

  lemma InsertOpens(s: State, lid: LobbyId, pid: BasicId, metadata: Metadata, env: Env)
    requires OrdersOk(s, lid, env) && pid !in s.players
    ensures var t := Insert(s, lid, pid, metadata, env).state;
      pid in t.players && Opens(PlayerFields(pid), t.players[pid].metadataBudget, env.now)
  {
  }

  /** An account that a step opens starts full. */
  lemma StepOpens(s: State, op: Op, env: Env, a: Account)
    requires Linked(s) && EnvOk(s, op, env)
    requires Balance(s, a).None? && Balance(Step(s, op, env).state, a).Some?
    ensures Opens(a, Balance(Step(s, op, env).state, a).value, env.now)
  {
    if a.Address? {
      PeerBooked(s, op, env, a);
    } else if op.HostLobby? {
      if HostDenial(s, op, env.now).None? {
        HostedAs(s, op, env);
      }
    } else if op.JoinLobby? {
      if JoinDenial(s, op, env.now).None? {
        var s1 := ChargePeer(s, op.ip, env.now);
        InsertLeavesBooks(s1, op.lid, env.pid, op.playerMetadata, env);
        InsertOpens(s1, op.lid, env.pid, op.playerMetadata, env);
      }
    } else {
      OthersOpenNone(s, op, env);
    }
  }

  lemma OthersOpenNone(s: State, op: Op, env: Env)
    requires EnvOk(s, op, env) && !Admission(op)
    ensures Step(s, op, env).state.lobbies.Keys <= s.lobbies.Keys
    ensures Step(s, op, env).state.players.Keys <= s.players.Keys
  {
  }

  /** An account in good order: within its cap, at its rate, last refilled no later than any move from here on. */
  ghost predicate InOrderAt(r: ServerRun, i: nat, a: Account)
    requires i < |r.states|
  {
    Balance(r.states[i], a).Some? ==>
      var b := Balance(r.states[i], a).value;
      && Within(b, Cap(a)) && b.max == Steady(a) && b.rate == Rate(a)
      && forall k :: i <= k < |r.moves| ==> b.lastRefill <= r.moves[k].env.now
  }

  lemma MoveBooks(r: ServerRun, i: nat, a: Account)
    requires IsServerRun(r) && i < |r.moves|
    ensures Booked(r.states[i], r.moves[i].op, r.moves[i].env.now, a, r.states[i + 1])
    ensures Balance(r.states[i], a).None? && Balance(r.states[i + 1], a).Some? ==>
      Opens(a, Balance(r.states[i + 1], a).value, r.moves[i].env.now)
  {
    ServerRunsAreValid(r, i, r.states[i]);
    assert MoveAt(r, i);
    StepBooks(r.states[i], r.moves[i].op, r.moves[i].env, a);
    if Balance(r.states[i], a).None? && Balance(r.states[i + 1], a).Some? {
      StepOpens(r.states[i], r.moves[i].op, r.moves[i].env, a);
    }
  }

  lemma {:induction false} AccountsInOrder(r: ServerRun, i: nat, a: Account)
    requires IsServerRun(r) && i < |r.states|
    ensures InOrderAt(r, i, a)
  {
    if i > 0 && Balance(r.states[i], a).Some? {
      AccountsInOrder(r, i - 1, a);
      MoveBooks(r, i - 1, a);
      var now := r.moves[i - 1].env.now;
      assert forall k :: i <= k < |r.moves| ==> InOrder(r.moves[i - 1], r.moves[k]);
      if Balance(r.states[i - 1], a).Some? && Asked(r.states[i - 1], r.moves[i - 1].op, a).Some? {
        TakenWithin(Balance(r.states[i - 1], a).value, now, Asked(r.states[i - 1], r.moves[i - 1].op, a).value, Cap(a));
      }
    }
  }

  // Windows.

  ghost predicate OpenBetween(r: ServerRun, a: Account, i: nat, j: nat) {
    j < |r.states| && forall k :: i <= k <= j ==> Balance(r.states[k], a).Some?
  }

  /** What is asked of the account by the moves from `i` up to `j`. */
  function Calls(r: ServerRun, a: Account, i: nat, j: nat): seq<Call>
    requires i <= j <= |r.moves| < |r.states|
    decreases j - i
  {
    if i == j then []
    else
      var asked := Asked(r.states[i], r.moves[i].op, a);
      (if asked.Some? then [Call(r.moves[i].env.now, asked.value)] else []) + Calls(r, a, i + 1, j)
  }

  lemma OneMoreCall(c: Call, rest: seq<Call>, next: real, until: real)
    requires c.at <= next <= until && During(rest, next, until)
    ensures During([c] + rest, c.at, until) && During(rest, c.at, until)
  {
    var calls := [c] + rest;
    assert forall k :: 1 <= k < |calls| ==> calls[k] == rest[k - 1];
  }

  lemma {:induction false} CallsInTime(r: ServerRun, a: Account, i: nat, j: nat)
    requires IsServerRun(r) && i < j <= |r.moves|
    ensures During(Calls(r, a, i, j), r.moves[i].env.now, r.moves[j - 1].env.now)
    decreases j - i
  {
    var now, until := r.moves[i].env.now, r.moves[j - 1].env.now;
    var rest := Calls(r, a, i + 1, j);
    var asked := Asked(r.states[i], r.moves[i].op, a);
    var c := Call(now, if asked.Some? then asked.value else 0);
    if i < j - 1 {
      CallsInTime(r, a, i + 1, j);
      assert InOrder(r.moves[i], r.moves[i + 1]) && (i + 1 < j - 1 ==> InOrder(r.moves[i + 1], r.moves[j - 1]));
      OneMoreCall(c, rest, r.moves[i + 1].env.now, until);
    } else {
      assert rest == [];
      OneMoreCall(c, rest, until, until);
    }
    assert Calls(r, a, i, j) == if asked.Some? then [c] + rest else rest;
  }

  /** An account is the bucket that its calls make of it. */
  lemma {:induction false} BalanceIsAfter(r: ServerRun, a: Account, i: nat, j: nat)
    requires IsServerRun(r) && i <= j <= |r.moves| && OpenBetween(r, a, i, j)
    ensures Balance(r.states[j], a).value == After(Balance(r.states[i], a).value, Calls(r, a, i, j))
    decreases j - i
  {
    if i < j {
      MoveBooks(r, i, a);
      BalanceIsAfter(r, a, i + 1, j);
      var asked := Asked(r.states[i], r.moves[i].op, a);
      if asked.Some? {
        assert Calls(r, a, i, j)[1..] == Calls(r, a, i + 1, j);
      } else {
        assert Calls(r, a, i, j) == Calls(r, a, i + 1, j);
      }
    }
  }

  /**
   * What an account lets through over any stretch of any run: alterations of a lobby at most 2 + T in T seconds,
   * bytes of a lobby's or of a player's fields at most 8192 + 4096 T.
   */
  lemma AccountsAreLimited(r: ServerRun, a: Account, i: nat, j: nat)
    requires IsServerRun(r) && i < j <= |r.moves| && OpenBetween(r, a, i, j)
    ensures SpentWithin(Balance(r.states[i], a).value, Calls(r, a, i, j),
      a, r.moves[j - 1].env.now - r.moves[i].env.now)
  {
    AccountsInOrder(r, i, a);
    CallsInTime(r, a, i, j);
    assert i < j - 1 ==> InOrder(r.moves[i], r.moves[j - 1]);
    WithinLimits(Balance(r.states[i], a).value, Calls(r, a, i, j), a, r.moves[i].env.now, r.moves[j - 1].env.now);
  }

  predicate SpentWithin(b: Bucket, calls: seq<Call>, a: Account, seconds: real) {
    Spent(b, calls) as real <= Cap(a) + Rate(a) * seconds
  }

  lemma WithinLimits(b: Bucket, calls: seq<Call>, a: Account, from: real, until: real)
    requires Within(b, Cap(a)) && b.rate == Rate(a) && b.lastRefill <= from <= until && During(calls, from, until)
    ensures SpentWithin(b, calls, a, until - from)
  {
    WindowAtRate(b, calls, Rate(a), Cap(a), from, until);
  }

  // Nothing refused without need.

  predicate Paid(s: State, op: Op, a: Account, size: nat, now: real) {
    Asked(s, op, a) == Some(size) && Balance(s, a).Some? && Allows(Balance(s, a).value, now, size)
  }

  /** Whatever the `k`th move asks of the account, it gets. */
  ghost predicate Granted(r: ServerRun, a: Account, k: nat)
    requires k < |r.moves| && k < |r.states|
  {
    var asked := Asked(r.states[k], r.moves[k].op, a);
    asked.Some? ==> Paid(r.states[k], r.moves[k].op, a, asked.value, r.moves[k].env.now)
  }

  lemma {:induction false} NoneRefusedIsGranted(r: ServerRun, a: Account, i: nat, j: nat, b: Bucket)
    requires IsServerRun(r) && i <= j <= |r.moves| && OpenBetween(r, a, i, j) && b == Balance(r.states[i], a).value
    ensures NoneRefused(b, Calls(r, a, i, j)) <==> forall k: nat :: i <= k < j ==> Granted(r, a, k)
    decreases j - i
  {
    if i < j {
      var asked, now := Asked(r.states[i], r.moves[i].op, a), r.moves[i].env.now;
      var rest := Calls(r, a, i + 1, j);
      MoveBooks(r, i, a);
      NoneRefusedIsGranted(r, a, i + 1, j, Balance(r.states[i + 1], a).value);
      if asked.Some? {
        assert Calls(r, a, i, j) == [Call(now, asked.value)] + rest;
        NoneRefusedAfterFirst(b, Calls(r, a, i, j), Taken(b, now, asked.value));
        assert Calls(r, a, i, j)[1..] == rest;
      } else {
        assert Calls(r, a, i, j) == rest;
      }
      assert Granted(r, a, i) <==> asked.Some? ==> Allows(b, now, asked.value);
    }
  }

  /**
   * Whoever keeps to the rate is never refused. Over any stretch at whose start an account is full, as every account is
   * when it opens: if no part of it asks for more than what the account refills to and what accrues meanwhile, then
   * everything asked is granted.
   */
  lemma ModestRequestsPass(r: ServerRun, a: Account, i: nat, j: nat)
    requires IsServerRun(r) && i < j <= |r.moves| && OpenBetween(r, a, i, j)
    requires Steady(a) <= Balance(r.states[i], a).value.tokens && Modest(Calls(r, a, i, j), Steady(a), Rate(a))
    ensures forall k: nat :: i <= k < j ==> Granted(r, a, k)
  {
    AccountsInOrder(r, i, a);
    CallsInTime(r, a, i, j);
    ModestCallsPass(Balance(r.states[i], a).value, Calls(r, a, i, j));
    NoneRefusedIsGranted(r, a, i, j, Balance(r.states[i], a).value);
  }

  // Nothing unpaid.

  /** What a message to someone already in the lobby says that was not so before, and who has paid for it. */
  ghost predicate Accounted(s: State, op: Op, now: real, q: BasicId, m: ServerMessage)
    requires q in s.players
  {
    && (m.SetPlayerMeta? ==>
         op == SetPlayerMetaOp(m.pid, m.key, m.value) && Paid(s, op, PlayerFields(m.pid), |m.key| + |m.value|, now))
    && (m.SetLobbyMeta? ==>
         && op.SetLobbyMetaOp? && op.key == m.key && op.value == m.value
         && Paid(s, op, LobbyFields(s.players[q].lid), |m.key| + |m.value|, now))
    && (m.SetCapacity? ==>
         op.SetCapacityOp? && op.capacity == m.capacity && Paid(s, op, Alterations(s.players[q].lid), 1, now))
    && (m.SetListed? ==>
         op.SetListedOp? && op.listed == m.listed && Paid(s, op, Alterations(s.players[q].lid), 1, now))
    && (m.SetMaster? ==>
         || op.RemovePlayer?
         || (op.SetMasterOp? && op.newMaster == m.pid && Paid(s, op, Alterations(s.players[q].lid), 1, now)))
  }

  lemma AlterationsArePaid(s: State, op: Op, now: real, q: BasicId, m: ServerMessage)
    requires Linked(s) && IsAlteration(op) && q in s.players && m in SentTo(Alteration(s, op, now).out, q)
    ensures Accounted(s, op, now, q, m)
  {
  }

  lemma FieldsArePaid(s: State, op: Op, now: real, q: BasicId, m: ServerMessage)
    requires Linked(s) && ChangesFields(op) && q in s.players && m in SentTo(FieldChange(s, op, now).out, q)
    ensures Accounted(s, op, now, q, m)
  {
    if op.SetPlayerMetaOp? {
      PlayerFieldIsPaid(s, op.pid, op.key, op.value, now, q, m);
    } else if op.SetLobbyMetaOp? {
      LobbyFieldIsPaid(s, op.initiator, op.key, op.value, now, q, m);
    } else {
      assert m.ErasePlayerMeta? || m.EraseLobbyMeta?;
    }
  }

  lemma PlayerFieldIsPaid(s: State, pid: BasicId, key: Text, value: Text, now: real, q: BasicId, m: ServerMessage)
    requires Linked(s) && q in s.players && m in SentTo(SetPlayerField(s, pid, key, value, now).out, q)
    ensures Accounted(s, SetPlayerMetaOp(pid, key, value), now, q, m)
  {
  }

  lemma LobbyFieldIsPaid(s: State, initiator: BasicId, key: Text, value: Text, now: real, q: BasicId, m: ServerMessage)
    requires Linked(s) && q in s.players && m in SentTo(SetLobbyField(s, initiator, key, value, now).out, q)
    ensures Accounted(s, SetLobbyMetaOp(initiator, key, value), now, q, m)
  {
  }

  lemma AdmissionsAnnounceNoChange(s: State, op: Op, env: Env, q: BasicId, m: ServerMessage)
    requires EnvOk(s, op, env) && Admission(op) && q in s.players && m in SentTo(Step(s, op, env).out, q)
    ensures m.Joined?
  {
    if op.HostLobby? && HostDenial(s, op, env.now).None? {
      HostedTells(s, op, env);
    }
  }

  lemma OthersAnnounceNoChange(s: State, op: Op, env: Env, q: BasicId, m: ServerMessage)
    requires EnvOk(s, op, env) && !Admission(op) && !IsAlteration(op) && !ChangesFields(op)
    requires m in SentTo(Step(s, op, env).out, q)
    ensures m.Disconnected? || m.Relayed? || (op.RemovePlayer? && (m.Left? || m.SetMaster?))
  {
  }

  /** A change that is announced to those already there has been asked for by the one entitled to it, and paid for. */
  lemma AnnouncementsArePaid(s: State, op: Op, env: Env, q: BasicId, m: ServerMessage)
    requires Linked(s) && EnvOk(s, op, env) && q in s.players && m in SentTo(Step(s, op, env).out, q)
    ensures Accounted(s, op, env.now, q, m)
  {
    if Admission(op) {
      AdmissionsAnnounceNoChange(s, op, env, q, m);
    } else if IsAlteration(op) {
      assert Step(s, op, env) == Alteration(s, op, env.now);
      AlterationsArePaid(s, op, env.now, q, m);
    } else if ChangesFields(op) {
      assert Step(s, op, env) == FieldChange(s, op, env.now);
      FieldsArePaid(s, op, env.now, q, m);
    } else {
      OthersAnnounceNoChange(s, op, env, q, m);
    }
  }
}
