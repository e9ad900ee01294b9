/** The budget of an address over any stretch of a run, through pruning and re-creation of its peer. */
module Budget {
  import opened Basics
  import opened Tokens
  import opened Server
  import opened ServerInvariants
  import opened System
  import opened Ownership
  import opened Conservation

  const RATE := 2.0
  const STEADY := 3.0
  const BURST := 4.0

  /** A peer's bucket as it was made, never touched while its address has no session. */
  ghost predicate PeerBudgeted(peer: Peer, now: real) {
    && peer.budget.rate == RATE && peer.budget.max == STEADY
    && 0.0 <= peer.budget.tokens <= BURST && peer.budget.lastRefill <= now
    && (peer.sessions.Decaying? ==> peer.budget.lastRefill <= peer.sessions.since <= now)
  }

  ghost predicate Budgeted(y: System) {
    forall ip :: ip in y.server.peers ==> PeerBudgeted(y.server.peers[ip], y.now)
  }

  /**
   * The most an address could still be let through at once. It counts the refill up to the burst, not only up to
   * the steady maximum: that is what a pruned and re-created peer can make good.
   */
  function Credit(peers: map<Ip, Peer>, ip: Ip, now: real): real {
    if ip in peers then
      Tokens.Min(peers[ip].budget.tokens + (now - peers[ip].budget.lastRefill) * RATE, BURST)
    else BURST
  }

  lemma TakingBudgeted(peer: Peer, now: real)
    requires PeerBudgeted(peer, now) && peer.sessions.Active?
    ensures PeerBudgeted(peer.(budget := Taken(peer.budget, now, 1)), now)
  {
  }

  /** A peer's bucket holds no more than its credit, which grows at the steady rate. */
  lemma LevelWithinCredit(peer: Peer, now: real)
    requires PeerBudgeted(peer, now)
    ensures var b := peer.budget;
      Level(b, now) <= Tokens.Min(b.tokens + (now - b.lastRefill) * RATE, BURST)
  {
    var b := peer.budget;
    assert (now - b.lastRefill) * b.rate == (now - b.lastRefill) * RATE;
  }

  /** Letting a call through costs one credit; turning one away gains none. */
  lemma TakingCosts(peers: map<Ip, Peer>, ip: Ip, now: real)
    requires ip in peers && PeerBudgeted(peers[ip], now)
    ensures var after := peers[ip := peers[ip].(budget := Taken(peers[ip].budget, now, 1))];
      Credit(after, ip, now) + (if Allows(peers[ip].budget, now, 1) then 1.0 else 0.0) <= Credit(peers, ip, now)
  {
    var b := peers[ip].budget;
    LevelWithinCredit(peers[ip], now);
    var taken := Taken(b, now, 1);
    assert taken.lastRefill == now && (now - taken.lastRefill) * RATE == 0.0;
    assert taken.tokens + (if Allows(b, now, 1) then 1.0 else 0.0) == Level(b, now);
  }

  /** A peer is only forgotten when its credit is back to the full burst. */
  lemma PruningIsFree(peer: Peer, now: real)
    requires PeerBudgeted(peer, now) && Expired(peer, now)
    ensures Credit(map[0 := peer], 0, now) == BURST
  {
  }

  lemma CreditBounds(y: System, ip: Ip)
    requires Budgeted(y)
    ensures 0.0 <= Credit(y.server.peers, ip, y.now) <= BURST
  {
  }

  /** While an address has a session counted, its peer is active. */
  lemma CapOpsFindActivePeers(y: System)
    requires ConnsOk(y) && ChannelOk(y) && Counted(y) && y.channel != [] && CapOp(y.channel[0].op)
    ensures y.channel[0].op.ip in y.server.peers && y.server.peers[y.channel[0].op.ip].sessions.Active?
  {
    ServedFrom(y);
    var Request(from, op) := y.channel[0];
    assert from.value in OpenFrom(y, op.ip);
    assert |OpenFrom(y, op.ip)| > 0;
    assert SessionsOf(y.server.peers, op.ip) > 0;
  }

  /** What an operation makes of the peers. */
  ghost function PeersNext(s: State, op: Op, now: real): map<Ip, Peer> {
    if CapOp(op) then ChargePeer(s, op.ip, now).peers
    else if op.IntroduceSession? then Introduce(s, op.ip, now).state.peers
    else if op.CloseSession? then Close(s, op.ip, now).peers
    else if op.Prune? then PruneOutcome(s, now).state.peers
    else s.peers
  }

  lemma PeersAfter(s: State, op: Op, env: Env)
    requires EnvOk(s, op, env)
    ensures Step(s, op, env).state.peers == PeersNext(s, op, env.now)
  {
    if LeavesPeers(op) {
      PeersLeft(s, op, env);
    } else if CapOp(op) {
      PeersCharged(s, op, env);
    }
  }

  lemma DispatchedBudgeted(y: System, o: Outcome, z: System)
    requires ConnsOk(y) && ChannelOk(y) && Counted(y) && Budgeted(y) && y.channel != []
    requires o.state.peers == PeersNext(y.server, y.channel[0].op, y.now) && z == Dispatched(y, o)
    ensures Budgeted(z)
  {
    var op := y.channel[0].op;
    if CapOp(op) {
      CapOpsFindActivePeers(y);
      TakingBudgeted(y.server.peers[op.ip], y.now);
    }
  }

  lemma DispatchedCredit(y: System, o: Outcome, ip: Ip, z: System)
    requires ConnsOk(y) && ChannelOk(y) && Counted(y) && Budgeted(y) && y.channel != []
    requires o.state.peers == PeersNext(y.server, y.channel[0].op, y.now) && z == Dispatched(y, o)
    ensures CallsPassed(z.passed, ip) as real + Credit(z.server.peers, ip, z.now)
      <= CallsPassed(y.passed, ip) as real + Credit(y.server.peers, ip, y.now)
  {
    var op := y.channel[0].op;
    if CapOp(op) {
      CapOpsFindActivePeers(y);
      TakingCosts(y.server.peers, op.ip, y.now);
    } else if op.Prune? && ip in y.server.peers && Expired(y.server.peers[ip], y.now) {
      PruningIsFree(y.server.peers[ip], y.now);
    }
  }

  lemma FireKeepsBudgets(y: System, ev: Event)
    requires Disciplined(y) && Counted(y) && Budgeted(y) && Enabled(y, ev)
    ensures Budgeted(Fire(y, ev)) && y.now <= Fire(y, ev).now
  {
    if ev.Serve? {
      PeersAfter(y.server, y.channel[0].op, ev.env);
      DispatchedBudgeted(y, Step(y.server, y.channel[0].op, ev.env), Served(y, ev.env));
    } else {
      OtherStepsCountNothing(y, ev);
    }
  }

  /** One step: calls let through are paid for by credit and by the time that passes. */
  lemma FireCredit(y: System, ev: Event, ip: Ip)
    requires Disciplined(y) && Counted(y) && Budgeted(y) && Enabled(y, ev)
    ensures var z := Fire(y, ev);
      CallsPassed(z.passed, ip) as real + Credit(z.server.peers, ip, z.now)
      <= CallsPassed(y.passed, ip) as real + Credit(y.server.peers, ip, y.now) + RATE * (z.now - y.now)
  {
    if ev.Serve? {
      PeersAfter(y.server, y.channel[0].op, ev.env);
      DispatchedCredit(y, Step(y.server, y.channel[0].op, ev.env), ip, Served(y, ev.env));
    } else {
      OtherStepsCountNothing(y, ev);
    }
  }
}
