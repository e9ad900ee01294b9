/**
 * What a client's message comes to, from the frame that the session reads to what the event loop then does and to what
 * the session writes in the end.
 */
module Requests {
  import opened Basics
  import opened Tokens
  import opened Server
  import opened ServerInvariants
  import opened Sessions
  import opened Effects

  /** A session that is going on and waits for nothing. */
  predicate Attends(c: Session) {
    !c.stop && c.awaiting.Idle?
  }

  /** A frame that is within the session's budgets. */
  predicate Affords(c: Session, size: nat, now: real) {
    Allows(c.payloads, now, 1) && Allows(c.bandwidth, now, size)
  }

  // Ends.

  function Parting(c: Session, reason: Kick): seq<Op> {
    if c.pid.Some? then [RemovePlayer(c.pid.value, reason)] else []
  }

  /** The session ends, telling the client why; its player, if it has one, leaves for the same reason. */
  predicate Expels(c: Session, p: Progress, reason: Kick) {
    p.session.stop && p.sent == [Disconnected(reason)] && p.ops == Parting(c, reason)
  }

  /** The session ends without a word. */
  predicate Breaks(c: Session, p: Progress) {
    p.session.stop && p.sent == [] && p.ops == Parting(c, c.byeReason)
  }

  /** The session goes on, with the same player, and nothing is asked or written. */
  predicate GoesOn(c: Session, p: Progress) {
    !p.session.stop && p.session.awaiting.Idle? && p.session.pid == c.pid && p.sent == [] && p.ops == []
  }

  /** One operation is asked for, and the session goes on; if it waits, it waits for the answer. */
  predicate AsksOne(c: Session, p: Progress, waits: bool) {
    && !p.session.stop && p.session.pid == c.pid && p.sent == [] && |p.ops| == 1
    && (!p.session.awaiting.Idle? <==> waits)
  }

  // A client with a player.

  predicate Misplaced(m: ClientMessage, seated: bool) {
    if seated then m.ListRequest? || m.HostRequest? || m.JoinRequest?
    else !m.ListRequest? && !m.HostRequest? && !m.JoinRequest? && !m.Leave?
  }

  /** What the message of player `me` asks for is what comes of it. */
  ghost predicate Done(c: Session, me: BasicId, m: ClientMessage, asked: real, s: State, now: real, o: Outcome) {
    match m
    case Ping => ListsMates(s, me, o)
    case Leave(code, msg) => Removes(s, me, Natural(code, msg), o)
    case Pass(to, signal) =>
      if Allows(c.relays, asked, 1) then PassesSignal(s, me, to, signal, o) else Removes(s, me, Violated(c.relays), o)
    case ChangeListed(listed) => SetsListing(s, me, listed, now, o)
    case ChangeCapacity(capacity) => SetsCapacity(s, me, capacity, now, o)
    case ChangePlayerField(key, value) => SetsPlayerField(s, me, key, value, now, o)
    case DropPlayerField(key) => ErasesPlayerField(s, me, key, o)
    case ChangeLobbyField(key, value) => SetsLobbyField(s, me, key, value, now, o)
    case DropLobbyField(key) => ErasesLobbyField(s, me, key, o)
    case KickRequest(q) => Kicks(s, me, q, o)
    case ChangeMaster(heir) => HandsOver(s, me, heir, now, o)
    case _ => false
  }

  lemma TurnOnFrame(c: Session, size: nat, frame: Frame, now: real, h: Progress, p: Progress)
    requires Affords(c, size, now) && p == Turn(c, Received(size, frame), now)
    requires var c1 := c.(payloads := Taken(c.payloads, now, 1), bandwidth := Taken(c.bandwidth, now, size));
      h == Process(c1, frame, now)
    ensures h.error.None? && !h.session.stop ==> p == h
    ensures h.error.Some? ==>
      && p.session.stop && p.sent == h.sent + [Disconnected(h.error.value)]
      && p.ops == h.ops + Parting(h.session, h.error.value)
    ensures h.error.None? && h.session.stop ==>
      p.session.stop && p.sent == h.sent && p.ops == h.ops + Parting(h.session, h.session.byeReason)
  {
  }

  /**
   * A player's message does what it says. The session asks the event loop for one operation, and whenever that is
   * served, it does to the lobby and tells its players what the message was for. A message that only makes sense before
   * there is a player ends the session.
   */
  lemma PlayersAreObeyed(
      c: Session, me: BasicId, size: nat, m: ClientMessage, now: real, p: Progress, s: State, env: Env, o: Outcome)
    requires Attends(c) && Affords(c, size, now) && c.pid == Some(me) && p == Turn(c, Received(size, Text(m)), now)
    requires Linked(s) && (p.ops != [] ==> EnvOk(s, p.ops[0], env) && o == Step(s, p.ops[0], env))
    ensures Misplaced(m, true) ==> Expels(c, p, Violation("bad_payload", "Invalid payload"))
    ensures !Misplaced(m, true) ==> AsksOne(c, p, m.Ping?) && Done(c, me, m, now, s, env.now, o)
  {
    var c1 := c.(payloads := Taken(c.payloads, now, 1), bandwidth := Taken(c.bandwidth, now, size));
    var h := Process(c1, Text(m), now);
    TurnOnFrame(c, size, Text(m), now, h, p);
    match m
    case Ping => PongIsAssembled(s, me, env);
    case Leave(code, msg) => PlayerIsRemoved(s, me, Natural(code, msg), env);
    case Pass(to, signal) =>
      if Allows(c.relays, now, 1) {
        SignalIsPassed(s, me, to, signal, env);
      } else {
        PlayerIsRemoved(s, me, Violated(c.relays), env);
      }
    case ChangeListed(listed) => ListingIsSet(s, me, listed, env);
    case ChangeCapacity(capacity) => CapacityIsSet(s, me, capacity, env);
    case ChangePlayerField(key, value) => PlayerFieldIsSet(s, me, key, value, env);
    case DropPlayerField(key) => PlayerFieldIsErased(s, me, key, env);
    case ChangeLobbyField(key, value) => LobbyFieldIsSet(s, me, key, value, env);
    case DropLobbyField(key) => LobbyFieldIsErased(s, me, key, env);
    case KickRequest(q) => MemberIsKicked(s, me, q, env);
    case ChangeMaster(heir) => MasterIsSet(s, me, heir, env);
    case ListRequest(_, _) =>
    case HostRequest(_, _, _, _, _) =>
    case JoinRequest(_, _) =>
  }

  // A client without one.

  ghost predicate Entered(c: Session, m: ClientMessage, s: State, env: Env, o: Outcome) {
    match m
    case ListRequest(gid, limit) => ListsOpenLobbies(s, c.ip, gid, limit, env.now, o)
    case HostRequest(gid, capacity, listed, playerMetadata, lobbyMetadata) =>
      HostsLobby(s, HostLobby(c.ip, gid, lobbyMetadata, capacity, listed, playerMetadata), env, o)
    case JoinRequest(lid, metadata) => JoinsLobby(s, c.ip, lid, metadata, env, o)
    case _ => false
  }

  /** The same before there is a player: the client may have lobbies listed, host one, or join one. */
  lemma NewcomersAreObeyed(
      c: Session, size: nat, m: ClientMessage, now: real, p: Progress, s: State, env: Env, o: Outcome)
    requires Attends(c) && Affords(c, size, now) && c.pid.None? && p == Turn(c, Received(size, Text(m)), now)
    requires p.ops != [] ==> EnvOk(s, p.ops[0], env) && o == Step(s, p.ops[0], env)
    ensures Misplaced(m, false) ==> Expels(c, p, Violation("bad_payload", "Invalid payload"))
    ensures m.Leave? ==> GoesOn(c, p)
    ensures !Misplaced(m, false) && !m.Leave? ==> AsksOne(c, p, true) && Entered(c, m, s, env, o)
  {
    var c1 := c.(payloads := Taken(c.payloads, now, 1), bandwidth := Taken(c.bandwidth, now, size));
    var h := Process(c1, Text(m), now);
    TurnOnFrame(c, size, Text(m), now, h, p);
    if m.ListRequest? {
      LobbiesAreListed(s, c.ip, m.gid, m.limit, env);
    } else if m.HostRequest? {
      LobbyIsHosted(s, HostLobby(c.ip, m.gid, m.lobbyMetadata, m.capacity, m.listed, m.playerMetadata), env);
    } else if m.JoinRequest? {
      LobbyIsJoined(s, c.ip, m.lid, m.playerMetadata, env);
    }
  }

  // Answers.

  /**
   * What a waiting session does with its answer: a pong or a listing is written, and the listing ends the session; an
   * admission gives it its player; a refusal is told, and ends it.
   */
  lemma AnswersAreTaken(c: Session, reply: Reply, now: real, p: Progress)
    requires !c.stop && p == Turn(c, Answered(reply), now) && (reply.Ponged? || c.pid.None?)
    ensures reply.Ponged? ==>
      GoesOn(c, p.(sent := [])) && p.sent == [Pong(reply.players)]
    ensures reply.Listed? ==> p.session.stop && p.sent == [List(reply.list)] && p.ops == []
    ensures reply.Admitted? ==>
      GoesOn(c, p.(session := p.session.(pid := c.pid))) && p.session.pid == Some(reply.pid)
    ensures reply.Denied? ==> Expels(c, p, reply.reason)
  {
  }

  // All else that a session hears of.

  /** A frame that is no text, no message or too much ends the session and says so; a control frame does not. */
  lemma BadFramesEndIt(c: Session, size: nat, frame: Frame, now: real, p: Progress)
    requires Attends(c) && p == Turn(c, Received(size, frame), now)
    ensures !Allows(c.payloads, now, 1) ==> Expels(c, p, Violated(c.payloads))
    ensures Allows(c.payloads, now, 1) && !Allows(c.bandwidth, now, size) ==> Expels(c, p, Violated(c.bandwidth))
    ensures Affords(c, size, now) ==>
      && (frame.Binary? ==> Expels(c, p, Violation("binary_unsupported", "Binary messages not supported")))
      && (frame.Garbled? ==> Expels(c, p, Violation("bad_json", "JSON parse error")))
      && (frame.Closing? ==> Breaks(c, p))
      && (frame.Control? ==> GoesOn(c, p))
  {
  }

  /** Five idle seconds end a session exactly if it has no player; a failing socket ends any. */
  lemma SilenceEndsIt(c: Session, now: real)
    requires Attends(c)
    ensures c.pid.None? ==> Breaks(c, Turn(c, TimedOut, now))
    ensures c.pid.Some? ==> GoesOn(c, Turn(c, TimedOut, now))
    ensures Breaks(c, Turn(c, Failed, now))
  {
  }

  /** What is queued for the player is written as it is; a farewell ends the session, for the reason it gives. */
  lemma QueueIsWritten(c: Session, m: ServerMessage, now: real, p: Progress)
    requires Attends(c) && p == Turn(c, Dequeued(m), now)
    ensures m.Disconnected? ==> Expels(c, p, m.reason)
    ensures !m.Disconnected? ==> GoesOn(c, p.(sent := [])) && p.sent == [m]
  {
  }
}
