/** A session as the server runs it: fields updated in place, one input after another, until it stops. */
module SessionLoop {
  import opened Basics
  import opened Tokens
  import opened Server
  import opened Sessions

  datatype Timed = Timed(input: Input, now: real)

  /** What a session has come to: its state, the operations it issued and the messages it wrote. */
  datatype Story = Story(session: Session, ops: seq<Op>, sent: seq<ServerMessage>)

  /** A whole session, turn by turn, as far as the inputs go or until it stops. */
  function Life(s: Session, inputs: seq<Timed>): Story
    decreases |inputs|
  {
    if inputs == [] || s.stop then Story(s, [], [])
    else
      var p := Turn(s, inputs[0].input, inputs[0].now);
      var rest := Life(p.session, inputs[1..]);
      Story(rest.session, p.ops + rest.ops, p.sent + rest.sent)
  }

  /** Every input comes when the session can take it. */
  predicate Acceptable(s: Session, inputs: seq<Timed>)
    decreases |inputs|
  {
    s.stop || inputs == []
    || (Accepts(s, inputs[0].input) && Acceptable(Turn(s, inputs[0].input, inputs[0].now).session, inputs[1..]))
  }

  /** What is left to do for a session that has stopped: to take its player out. */
  function LastWords(s: Session): seq<Op> {
    if s.stop && s.pid.Some? then [RemovePlayer(s.pid.value, s.byeReason)] else []
  }

  lemma TurnParts(s: Session, input: Input, now: real)
    ensures var p, h := Turn(s, input, now), Farewell(Handle(s, input, now));
      p.session == h.session && p.sent == h.sent && p.ops == h.ops + LastWords(h.session)
  {
    var h := Farewell(Handle(s, input, now));
    assert h.ops + [] == h.ops;
  }

  // What a whole session is like.

  ghost predicate OnlyLastIsFarewell(sent: seq<ServerMessage>) {
    forall i :: 0 <= i < |sent| - 1 ==> !sent[i].Disconnected?
  }

  lemma TurnWritesOne(s: Session, input: Input, now: real)
    requires Accepts(s, input)
    ensures var p := Turn(s, input, now);
      && |p.sent| <= 1
      && (p.sent != [] && p.sent[0].Disconnected? ==> p.session.stop && p.session.byeReason == p.sent[0].reason)
      && (p.sent == [] || !p.sent[0].Disconnected? ==> p.session.byeReason == s.byeReason)
  {
    var h := Handle(s, input, now);
    assert |h.sent| <= 1 && (h.error.Some? ==> h.sent == []) && h.session.stop == (h.session.stop || s.stop);
    TurnParts(s, input, now);
  }

  /**
   * A session that went from `s` to `life`: told of its end at most once and last, and removing its player for that
   * reason.
   */
  ghost predicate EndsOnce(s: Session, life: Story) {
    && OnlyLastIsFarewell(life.sent)
    && (life.sent != [] && life.sent[|life.sent| - 1].Disconnected? ==>
         life.session.stop && life.session.byeReason == life.sent[|life.sent| - 1].reason)
    && (life.sent == [] || !life.sent[|life.sent| - 1].Disconnected? ==> life.session.byeReason == s.byeReason)
    && (life.session.stop && life.session.pid.Some? ==>
         life.ops != [] && life.ops[|life.ops| - 1] == RemovePlayer(life.session.pid.value, life.session.byeReason))
    && (forall op :: op in life.ops ==> ValidOp(op))
  }

  lemma TurnEndsOnce(s: Session, input: Input, now: real)
    requires Accepts(s, input)
    ensures var p := Turn(s, input, now); EndsOnce(s, Story(p.session, p.ops, p.sent)) && |p.sent| <= 1
  {
    TurnDiscipline(s, input, now);
    TurnWritesOne(s, input, now);
  }

  lemma EndsOnceAfter(s: Session, first: Story, rest: Story)
    requires EndsOnce(s, first) && !first.session.stop && |first.sent| <= 1 && EndsOnce(first.session, rest)
    ensures EndsOnce(s, Story(rest.session, first.ops + rest.ops, first.sent + rest.sent))
  {
  }

  /**
   * A client hears of the end of its session at most once, and nothing after it. A session that has stopped with a
   * player has, last of all, asked for the player's removal, for the very reason that the client was told.
   */
  lemma {:induction false} SessionsEndOnce(s: Session, inputs: seq<Timed>)
    requires !s.stop && Acceptable(s, inputs)
    ensures EndsOnce(s, Life(s, inputs))
    decreases |inputs|
  {
    if inputs != [] {
      var p := Turn(s, inputs[0].input, inputs[0].now);
      TurnEndsOnce(s, inputs[0].input, inputs[0].now);
      LifeGoesOn(s, inputs);
      if p.session.stop {
        assert Life(s, inputs) == Story(p.session, p.ops, p.sent);
      } else {
        SessionsEndOnce(p.session, inputs[1..]);
        EndsOnceAfter(s, Story(p.session, p.ops, p.sent), Life(p.session, inputs[1..]));
      }
    }
  }

  lemma LifeGoesOn(s: Session, inputs: seq<Timed>)
    requires !s.stop && inputs != []
    ensures var p := Turn(s, inputs[0].input, inputs[0].now);
      && var rest := Life(p.session, inputs[1..]);
      && Life(s, inputs) == Story(rest.session, p.ops + rest.ops, p.sent + rest.sent)
      && (p.session.stop ==> Life(s, inputs) == Story(p.session, p.ops, p.sent))
  {
    var p := Turn(s, inputs[0].input, inputs[0].now);
    assert p.ops + [] == p.ops && p.sent + [] == p.sent;
  }

  /** What has been done and what the inputs still to come will bring make up the whole. */
  ghost predicate Follows(s: Session, issued: seq<Op>, written: seq<ServerMessage>, whole: Story, inputs: seq<Timed>) {
    && Acceptable(s, inputs)
    && Life(s, inputs).session == whole.session
    && issued + LastWords(s) + Life(s, inputs).ops == whole.ops
    && written + Life(s, inputs).sent == whole.sent
  }

  lemma Regroup<T>(done: seq<T>, turn: seq<T>, rest: seq<T>, next: seq<T>)
    requires next == done + turn
    ensures next + rest == done + (turn + rest) && done + [] + (turn + rest) == done + (turn + rest)
  {
  }

  /** `issued` and `written` are those after the turn. */
  lemma FollowsOn(
      s: Session, ops: seq<Op>, sent: seq<ServerMessage>, whole: Story, inputs: seq<Timed>, p: Progress,
      issued: seq<Op>, written: seq<ServerMessage>)
    requires !s.stop && inputs != [] && Follows(s, ops, sent, whole, inputs)
    requires p == Turn(s, inputs[0].input, inputs[0].now)
    requires issued + LastWords(p.session) == ops + p.ops && written == sent + p.sent
    ensures Follows(p.session, issued, written, whole, inputs[1..])
  {
    var rest := Life(p.session, inputs[1..]);
    LifeGoesOn(s, inputs);
    Regroup(ops, p.ops, rest.ops, issued + LastWords(p.session));
    Regroup(sent, p.sent, rest.sent, written);
  }

  lemma FollowsAtFirst(s: Session, ops: seq<Op>, sent: seq<ServerMessage>, whole: Story, inputs: seq<Timed>)
    requires !s.stop && Acceptable(s, inputs)
    requires var life := Life(s, inputs); whole == Story(life.session, ops + life.ops, sent + life.sent)
    ensures Follows(s, ops, sent, whole, inputs)
  {
    assert ops + [] == ops;
  }

  lemma FollowsAtLast(s: Session, ops: seq<Op>, sent: seq<ServerMessage>, whole: Story, inputs: seq<Timed>)
    requires Follows(s, ops, sent, whole, inputs) && (s.stop || inputs == [])
    ensures s == whole.session && ops + LastWords(s) == whole.ops && sent == whole.sent
  {
    assert ops + LastWords(s) + [] == ops + LastWords(s) && sent + [] == sent;
  }

  class SessionTask {
    const ip: Ip
    const payloads: TokenBucket
    const relays: TokenBucket
    const bandwidth: TokenBucket
    var stop: bool
    var pid: Option<BasicId>
    var byeReason: Kick
    var awaiting: Awaiting
    var issued: seq<Op>
    var written: seq<ServerMessage>

    ghost predicate Valid() {
      payloads != relays && relays != bandwidth && bandwidth != payloads
    }

    ghost function View(): Session
      reads this, payloads, relays, bandwidth
    {
      Session(ip, stop, pid, byeReason, payloads.View(), relays.View(), bandwidth.View(), awaiting)
    }

    /** The fields have gone from `s`, `ops` and `sent` the way that `p` tells. */
    ghost predicate Became(ops: seq<Op>, sent: seq<ServerMessage>, p: Progress)
      reads this, payloads, relays, bandwidth
    {
      View() == p.session && issued == ops + p.ops && written == sent + p.sent
    }

    constructor (ip: Ip, now: real)
      ensures Valid() && fresh(payloads) && fresh(relays) && fresh(bandwidth)
      ensures View() == NewSession(ip, now) && issued == [] && written == []
    {
      this.ip := ip;
      payloads := new TokenBucket("payloads", 30.0, 30.0, 60.0, now);
      relays := new TokenBucket("relays", 20.0, 20.0, 80.0, now);
      bandwidth := new TokenBucket("kbps", 4096.0, 4096.0, 12288.0, now);
      stop, pid, awaiting := false, None, Idle;
      byeReason := Natural("ok", "Graceful disconnection");
      issued, written := [], [];
    }

    method Execute(op: Op)
      modifies this`issued
      ensures issued == old(issued) + [op]
    {
      issued := issued + [op];
    }

    method Send(m: ServerMessage)
      modifies this`byeReason, this`stop, this`written
      ensures written == old(written) + [m] && View() == Written(old(View()), m)
    {
      if m.Disconnected? {
        byeReason := m.reason;
        stop := true;
      }
      written := written + [m];
    }

    method PassOn(to: BasicId, signal: Signal, now: real)
      requires Valid() && pid.Some?
      modifies this`issued, relays
      ensures Became(old(issued), old(written), Sessions.PassOn(old(View()), pid.value, to, signal, now))
    {
      var verdict := relays.TryTake(1, now);
      match verdict
      case Refused(reason) => Execute(RemovePlayer(pid.value, reason));
      case Passed => Execute(Relay(pid.value, to, signal));
    }

    /** A message to a session that waits for its first lobby. */
    method Enter(m: ClientMessage) returns (error: Option<Kick>)
      requires Valid()
      modifies this`issued, this`awaiting
      ensures var p := Sessions.Enter(old(View()), m); error == p.error && Became(old(issued), old(written), p)
    {
      error := None;
      match m
      case ListRequest(gid, limit) =>
        Execute(ListLobbies(ip, gid, limit));
        awaiting := ForListing;
      case HostRequest(gid, capacity, listed, playerMetadata, lobbyMetadata) =>
        Execute(HostLobby(ip, gid, lobbyMetadata, capacity, listed, playerMetadata));
        awaiting := ForAdmission;
      case JoinRequest(lid, playerMetadata) =>
        Execute(JoinLobby(ip, lid, playerMetadata));
        awaiting := ForAdmission;
      case Leave(_, _) =>
      case _ => error := Some(Violation("bad_payload", "Invalid payload"));
    }

    /** A message to a session with a player. */
    method Play(player: BasicId, m: ClientMessage, now: real) returns (error: Option<Kick>)
      requires Valid() && pid == Some(player)
      modifies this`issued, this`awaiting, relays
      ensures var p := Sessions.Play(old(View()), player, m, now);
        error == p.error && Became(old(issued), old(written), p)
    {
      error := None;
      match m
      case Ping =>
        Execute(AssemblePong(player));
        awaiting := ForPong;
      case Leave(code, msg) => Execute(RemovePlayer(player, Natural(code, msg)));
      case Pass(to, signal) => PassOn(to, signal, now);
      case ChangeListed(listed) => Execute(SetListedOp(player, listed));
      case ChangeCapacity(capacity) => Execute(SetCapacityOp(player, capacity));
      case ChangePlayerField(key, value) => Execute(SetPlayerMetaOp(player, key, value));
      case DropPlayerField(key) => Execute(ErasePlayerMetaOp(player, key));
      case ChangeLobbyField(key, value) => Execute(SetLobbyMetaOp(player, key, value));
      case DropLobbyField(key) => Execute(EraseLobbyMetaOp(player, key));
      case KickRequest(kickee) => Execute(KickPlayer(player, kickee));
      case ChangeMaster(newMaster) => Execute(SetMasterOp(player, newMaster));
      case _ => error := Some(Violation("bad_payload", "Invalid payload"));
    }

    method Process(frame: Frame, now: real) returns (error: Option<Kick>)
      requires Valid()
      modifies this`issued, this`awaiting, this`stop, relays
      ensures var p := Sessions.Process(old(View()), frame, now);
        error == p.error && Became(old(issued), old(written), p)
    {
      error := None;
      match frame
      case Closing => stop := true;
      case Binary => error := Some(Violation("binary_unsupported", "Binary messages not supported"));
      case Control =>
      case Garbled => error := Some(Violation("bad_json", "JSON parse error"));
      case Text(m) =>
        if pid.Some? {
          error := Play(pid.value, m, now);
        } else {
          error := Enter(m);
        }
    }

    /** A frame off the socket, if the two budgets allow. */
    method Receive(size: nat, frame: Frame, now: real) returns (error: Option<Kick>)
      requires Valid()
      modifies this`issued, this`awaiting, this`stop, payloads, bandwidth, relays
      ensures var p := Sessions.Receive(old(View()), size, frame, now);
        error == p.error && Became(old(issued), old(written), p)
    {
      var verdict := payloads.TryTake(1, now);
      if verdict.Refused? {
        return Some(verdict.reason);
      }
      verdict := bandwidth.TryTake(size, now);
      if verdict.Refused? {
        return Some(verdict.reason);
      }
      error := Process(frame, now);
    }

    /** Going on with the event loop's answer in hand. */
    method Resume(reply: Reply) returns (error: Option<Kick>)
      requires Valid()
      modifies this`awaiting, this`stop, this`pid, this`byeReason, this`written
      ensures var p := Sessions.Resume(old(View()), reply); error == p.error && Became(old(issued), old(written), p)
    {
      error := None;
      awaiting := Idle;
      match reply
      case Ponged(players) => Send(Pong(players));
      case Listed(list) =>
        Send(List(list));
        stop := true;
      case Admitted(player) => pid := Some(player);
      case Denied(reason) => error := Some(reason);
      case _ =>
    }

    method HandleNext(input: Input, now: real) returns (error: Option<Kick>)
      requires Valid()
      modifies this, payloads, bandwidth, relays
      ensures var p := Handle(old(View()), input, now); error == p.error && Became(old(issued), old(written), p)
    {
      error := None;
      match input
      case Received(size, frame) => error := Receive(size, frame, now);
      case Dequeued(m) => Send(m);
      case TimedOut => stop := pid.None?;
      case Failed => stop := true;
      case Answered(reply) => error := Resume(reply);
    }

    method TakeTurn(input: Input, now: real)
      requires Valid()
      modifies this, payloads, bandwidth, relays
      ensures var p := Turn(old(View()), input, now);
        View() == p.session && issued + LastWords(View()) == old(issued) + p.ops && written == old(written) + p.sent
    {
      TurnParts(View(), input, now);
      var error := HandleNext(input, now);
      if error.Some? {
        Send(Disconnected(error.value));
      }
    }

    /** The session's whole life, as far as the inputs reach. */
    method Serve(inputs: seq<Timed>)
      requires Valid() && Acceptable(View(), inputs) && !stop
      modifies this, payloads, bandwidth, relays
      ensures var life := Life(old(View()), inputs);
        View() == life.session && issued == old(issued) + life.ops && written == old(written) + life.sent
    {
      ghost var life := Life(View(), inputs);
      ghost var whole := Story(life.session, issued + life.ops, written + life.sent);
      FollowsAtFirst(View(), issued, written, whole, inputs);
      var i := 0;
      assert inputs[i..] == inputs;
      while !stop && i < |inputs|
        invariant 0 <= i <= |inputs| && Follows(View(), issued, written, whole, inputs[i..])
      {
        ghost var s, ops, sent := View(), issued, written;
        assert inputs[i..][0] == inputs[i] && inputs[i..][1..] == inputs[i + 1..];
        TakeTurn(inputs[i].input, inputs[i].now);
        FollowsOn(s, ops, sent, whole, inputs[i..], Turn(s, inputs[i].input, inputs[i].now), issued, written);
        i := i + 1;
      }
      FollowsAtLast(View(), issued, written, whole, inputs[i..]);
      if stop && pid.Some? {
        Execute(RemovePlayer(pid.value, byeReason));
      }
    }
  }
}
