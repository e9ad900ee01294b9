/**
 * What the event loop serves in a run of the whole system is a run of the event loop alone, so that whatever holds of
 * all of those holds here too.
 */
module Service {
  import opened Basics
  import opened Server
  import opened System
  import opened Ownership
  import opened ServerRuns
  import opened HostingCaps
  import opened Runs

  /** A run of the event loop that has led to where the system's event loop is. */
  ghost predicate LedTo(r: ServerRun, y: System) {
    && IsServerRun(r) && r.states[|r.moves|] == y.server
    && (forall k :: 0 <= k < |r.moves| ==> r.moves[k].env.now <= y.now)
    && (forall k :: 0 <= k < |r.states| ==> r.states[k].players.Keys <= y.used)
  }

  lemma OtherStepsServeNothing(y: System, ev: Event)
    requires Enabled(y, ev) && !ev.Serve?
    ensures var z := Fire(y, ev); z.server == y.server && z.used == y.used && y.now <= z.now
  {
  }

  lemma ServedStep(y: System, env: Env)
    requires CanServe(y, env)
    ensures var z := Served(y, env);
      z.server == Step(y.server, y.channel[0].op, env).state && y.used <= z.used && z.now == y.now
  {
  }

  lemma ServedPlayersUsed(y: System, env: Env)
    requires Disciplined(y) && CanServe(y, env)
    ensures ValidOp(y.channel[0].op)
    ensures Served(y, env).server.players.Keys <= Served(y, env).used
  {
    ServedPlayersOwned(y, env);
    assert y.channel[0] in y.channel;
  }

  /** One operation more. */
  lemma RunGoesOn(r: ServerRun, op: Op, env: Env, t: State)
    requires IsServerRun(r) && ValidOp(op) && EnvOk(r.states[|r.moves|], op, env)
    requires t == Step(r.states[|r.moves|], op, env).state
    requires forall k :: 0 <= k < |r.moves| ==> r.moves[k].env.now <= env.now
    requires Admission(op) ==> forall k :: 0 <= k < |r.states| ==> env.pid !in r.states[k].players
    ensures IsServerRun(ServerRun(r.states + [t], r.moves + [Move(op, env)]))
  {
    var longer := ServerRun(r.states + [t], r.moves + [Move(op, env)]);
    forall i: nat | i < |longer.moves| ensures MoveAt(longer, i) {
      if i < |r.moves| {
        assert MoveAt(r, i);
      }
    }
    forall i, j | 0 <= i < j < |longer.moves| ensures InOrder(longer.moves[i], longer.moves[j]) {
      if j < |r.moves| {
        assert InOrder(r.moves[i], r.moves[j]);
      }
    }
  }

  lemma LongerRunLeads(r: ServerRun, m: Move, y: System, longer: ServerRun, z: System)
    requires LedTo(r, y) && longer == ServerRun(r.states + [z.server], r.moves + [m]) && IsServerRun(longer)
    requires z.server.players.Keys <= z.used && y.used <= z.used && m.env.now == y.now == z.now
    ensures LedTo(longer, z)
  {
  }

  lemma FreshInRun(r: ServerRun, y: System, env: Env)
    requires LedTo(r, y) && env.pid !in y.used
    ensures forall k :: 0 <= k < |r.states| ==> env.pid !in r.states[k].players
  {
  }

  /** What `Served` does to what a run of the event loop is about. */
  lemma ServedIsNext(y: System, op: Op, env: Env, z: System)
    requires Disciplined(y) && CanServe(y, env) && op == y.channel[0].op && z == Served(y, env)
    ensures ValidOp(op) && EnvOk(y.server, op, env) && z.server == Step(y.server, op, env).state
    ensures Admission(op) ==> env.pid !in y.used
    ensures z.server.players.Keys <= z.used && y.used <= z.used && env.now == y.now == z.now
  {
    ServedStep(y, env);
    ServedPlayersUsed(y, env);
  }

  lemma ServiceGoesOn(r: ServerRun, y: System, op: Op, env: Env, z: System)
    requires LedTo(r, y) && ValidOp(op) && EnvOk(y.server, op, env) && z.server == Step(y.server, op, env).state
    requires Admission(op) ==> env.pid !in y.used
    requires z.server.players.Keys <= z.used && y.used <= z.used && env.now == y.now == z.now
    ensures exists longer :: LedTo(longer, z)
  {
    if Admission(op) {
      FreshInRun(r, y, env);
    }
    RunGoesOn(r, op, env, z.server);
    var longer := ServerRun(r.states + [z.server], r.moves + [Move(op, env)]);
    LongerRunLeads(r, Move(op, env), y, longer, z);
  }

  lemma NextIsLedTo(r: ServerRun, y: System, z: System)
    requires Disciplined(y) && Next(y, z) && LedTo(r, y)
    ensures exists longer :: LedTo(longer, z)
  {
    var ev :| Enabled(y, ev) && z == Fire(y, ev);
    if ev.Serve? {
      ServedIsNext(y, y.channel[0].op, ev.env, z);
      ServiceGoesOn(r, y, y.channel[0].op, ev.env, z);
    } else {
      OtherStepsServeNothing(y, ev);
      assert LedTo(r, z);
    }
  }

  lemma StepIsLedTo(run: seq<System>, i: nat, r: ServerRun, z: System)
    requires IsRun(run) && i + 1 < |run| && LedTo(r, run[i]) && z == run[i + 1]
    ensures exists longer :: LedTo(longer, z)
  {
    RunsAreSound(run, i, run[i]);
    assert NextAt(run, i);
    NextIsLedTo(r, run[i], z);
  }

  lemma NothingServedYet(y: System)
    requires y == START
    ensures exists r :: LedTo(r, y)
  {
    var r := ServerRun([EMPTY], []);
    assert LedTo(r, y);
  }

  /** The operations served in a run of the system make up a run of the event loop that ends where the system's does. */
  lemma {:induction false} SystemsRunServers(run: seq<System>, i: nat)
    requires IsRun(run) && i < |run|
    ensures exists r :: LedTo(r, run[i])
  {
    if i == 0 {
      NothingServedYet(run[0]);
    } else {
      SystemsRunServers(run, i - 1);
      var r :| LedTo(r, run[i - 1]);
      StepIsLedTo(run, i - 1, r, run[i]);
    }
  }

  /** For instance: in no run of the system does an address own more than four lobbies. */
  lemma SystemsKeepHostingLimits(run: seq<System>, i: nat, ip: Ip)
    requires IsRun(run) && i < |run|
    ensures |LobbiesFrom(run[i].server, ip)| <= LOBBIES_PER_IP
  {
    SystemsRunServers(run, i);
    var r :| LedTo(r, run[i]);
    HostingLimits(r, |r.moves|);
  }
}
