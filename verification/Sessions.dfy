/**
 * A client's session on the server: what each frame, queued message or answer makes it do. An `await` splits a
 * turn in two: the request goes out in one turn, and `Answered` resumes the session with the event loop's reply.
 */
module Sessions {
  import opened Basics
  import opened Tokens
  import opened Server

  datatype ClientMessage =
    | Ping
    | ListRequest(gid: GameId, limit: nat)
    | HostRequest(gid: GameId, capacity: nat, listed: bool, playerMetadata: Metadata, lobbyMetadata: Metadata)
    | JoinRequest(lid: LobbyId, playerMetadata: Metadata)
    | Leave(code: string, msg: string)
    | Pass(to: BasicId, signal: Signal)
    | ChangeListed(listed: bool)
    | ChangeCapacity(capacity: nat)
    | ChangePlayerField(key: Text, value: Text)
    | DropPlayerField(key: Text)
    | ChangeLobbyField(key: Text, value: Text)
    | DropLobbyField(key: Text)
    | KickRequest(pid: BasicId)
    | ChangeMaster(pid: BasicId)

  /** What deserialization checks; anything else arrives as `Garbled`. */
  predicate ValidMessage(m: ClientMessage) {
    match m
    case HostRequest(_, capacity, _, playerMetadata, lobbyMetadata) =>
      ValidCapacity(capacity) && ValidMetadata(playerMetadata) && ValidMetadata(lobbyMetadata)
    case JoinRequest(_, playerMetadata) => ValidMetadata(playerMetadata)
    case ChangeCapacity(capacity) => ValidCapacity(capacity)
    case ChangePlayerField(key, value) => ValidKey(key) && ValidValue(value)
    case ChangeLobbyField(key, value) => ValidKey(key) && ValidValue(value)
    case _ => true
  }

  datatype Frame = Text(msg: ClientMessage) | Garbled | Binary | Closing | Control

  /** The reply a session is blocked on. */
  datatype Awaiting = Idle | ForPong | ForListing | ForAdmission

  datatype Session = Session(
    ip: Ip,
    stop: bool,
    pid: Option<BasicId>,
    byeReason: Kick,
    payloads: Bucket,
    relays: Bucket,
    bandwidth: Bucket,
    awaiting: Awaiting)

  function NewSession(ip: Ip, now: real): Session {
    Session(ip, false, None, Natural("ok", "Graceful disconnection"),
      Fresh("payloads", 30.0, 30.0, 60.0, now),
      Fresh("relays", 20.0, 20.0, 80.0, now),
      Fresh("kbps", 4096.0, 4096.0, 12288.0, now),
      Idle)
  }

  datatype Input =
    | Received(size: nat, frame: Frame)
    | Dequeued(msg: ServerMessage)
    | TimedOut
    | Failed
    | Answered(reply: Reply)

  /** What a session has done: its new state, the operations it issued, what it wrote, and any error. */
  datatype Progress = Progress(session: Session, ops: seq<Op>, sent: seq<ServerMessage>, error: Option<Kick>)

  function Going(s: Session): Progress {
    Progress(s, [], [], None)
  }

  function Issue(s: Session, op: Op): Progress {
    Progress(s, [op], [], None)
  }

  function Ask(s: Session, op: Op, awaiting: Awaiting): Progress {
    Progress(s.(awaiting := awaiting), [op], [], None)
  }

  function Fail(s: Session, reason: Kick): Progress {
    Progress(s, [], [], Some(reason))
  }

  /** Writing a message; a farewell ends the session. */
  function Written(s: Session, m: ServerMessage): Session {
    if m.Disconnected? then s.(byeReason := m.reason, stop := true) else s
  }

  function Write(s: Session, m: ServerMessage): Progress {
    Progress(Written(s, m), [], [m], None)
  }

  function BadPayload(s: Session): Progress {
    Fail(s, Violation("bad_payload", "Invalid payload"))
  }

  /** Relaying, or leaving the lobby when the relay budget is spent. */
  function PassOn(s: Session, from: BasicId, to: BasicId, signal: Signal, now: real): Progress {
    var charged := s.(relays := Taken(s.relays, now, 1));
    Issue(charged, if Allows(s.relays, now, 1) then Relay(from, to, signal) else RemovePlayer(from, Violated(s.relays)))
  }

  /** A client message to a session that has no player yet. */
  function Enter(s: Session, m: ClientMessage): Progress {
    match m
    case ListRequest(gid, limit) => Ask(s, ListLobbies(s.ip, gid, limit), ForListing)
    case HostRequest(gid, capacity, listed, playerMetadata, lobbyMetadata) =>
      Ask(s, HostLobby(s.ip, gid, lobbyMetadata, capacity, listed, playerMetadata), ForAdmission)
    case JoinRequest(lid, playerMetadata) => Ask(s, JoinLobby(s.ip, lid, playerMetadata), ForAdmission)
    case Leave(_, _) => Going(s)
    case _ => BadPayload(s)
  }

  /** A client message to a session with a player. */
  function Play(s: Session, pid: BasicId, m: ClientMessage, now: real): Progress {
    match m
    case Ping => Ask(s, AssemblePong(pid), ForPong)
    case Leave(code, msg) => Issue(s, RemovePlayer(pid, Natural(code, msg)))
    case Pass(to, signal) => PassOn(s, pid, to, signal, now)
    case ChangeListed(listed) => Issue(s, SetListedOp(pid, listed))
    case ChangeCapacity(capacity) => Issue(s, SetCapacityOp(pid, capacity))
    case ChangePlayerField(key, value) => Issue(s, SetPlayerMetaOp(pid, key, value))
    case DropPlayerField(key) => Issue(s, ErasePlayerMetaOp(pid, key))
    case ChangeLobbyField(key, value) => Issue(s, SetLobbyMetaOp(pid, key, value))
    case DropLobbyField(key) => Issue(s, EraseLobbyMetaOp(pid, key))
    case KickRequest(kickee) => Issue(s, KickPlayer(pid, kickee))
    case ChangeMaster(newMaster) => Issue(s, SetMasterOp(pid, newMaster))
    case _ => BadPayload(s)
  }

  function Process(s: Session, frame: Frame, now: real): Progress {
    match frame
    case Closing => Going(s.(stop := true))
    case Binary => Fail(s, Violation("binary_unsupported", "Binary messages not supported"))
    case Control => Going(s)
    case Garbled => Fail(s, Violation("bad_json", "JSON parse error"))
    case Text(m) => if s.pid.Some? then Play(s, s.pid.value, m, now) else Enter(s, m)
  }

  /** Two budgets stand before a frame is looked at. */
  function Receive(s: Session, size: nat, frame: Frame, now: real): Progress {
    var s1 := s.(payloads := Taken(s.payloads, now, 1));
    if !Allows(s.payloads, now, 1) then Fail(s1, Violated(s.payloads))
    else
      var s2 := s1.(bandwidth := Taken(s.bandwidth, now, size));
      if !Allows(s.bandwidth, now, size) then Fail(s2, Violated(s.bandwidth))
      else Process(s2, frame, now)
  }

  function Resume(s: Session, reply: Reply): Progress {
    var s1 := s.(awaiting := Idle);
    match reply
    case Ponged(players) => Write(s1, Pong(players))
    case Listed(list) => Write(s1.(stop := true), List(list))
    case Admitted(pid) => Going(s1.(pid := Some(pid)))
    case Denied(reason) => Fail(s1, reason)
    case _ => Going(s1)
  }

  /** What a session does about one input, before errors and its end are dealt with. */
  function Handle(s: Session, input: Input, now: real): Progress {
    match input
    case Received(size, frame) => Receive(s, size, frame, now)
    case Dequeued(m) => Write(s, m)
    case TimedOut => Going(s.(stop := s.pid.None?))
    case Failed => Going(s.(stop := true))
    case Answered(reply) => Resume(s, reply)
  }

  /** An error is told to the client, and ends the session. */
  function Farewell(p: Progress): Progress {
    if p.error.Some? then
      var m := Disconnected(p.error.value);
      Progress(Written(p.session, m), p.ops, p.sent + [m], p.error)
    else p
  }

  /** A session that ends takes its player out of the lobby. */
  function Conclude(p: Progress): Progress {
    if p.session.stop && p.session.pid.Some? then
      p.(ops := p.ops + [RemovePlayer(p.session.pid.value, p.session.byeReason)])
    else p
  }

  function Turn(s: Session, input: Input, now: real): Progress {
    Conclude(Farewell(Handle(s, input, now)))
  }

  /** Inputs a session takes: an answer while it waits for one, anything else while it does not. */
  predicate Accepts(s: Session, input: Input) {
    && !s.stop
    && match s.awaiting {
         case Idle => !input.Answered? && (input.Received? && input.frame.Text? ==> ValidMessage(input.frame.msg))
         case ForPong => s.pid.Some? && input.Answered? && input.reply.Ponged?
         case ForListing => s.pid.None? && input.Answered? && (input.reply.Listed? || input.reply.Denied?)
         case ForAdmission => s.pid.None? && input.Answered? && (input.reply.Admitted? || input.reply.Denied?)
       }
  }

  /** Operations issued without waiting for an answer, all on behalf of the session's own player. */
  predicate Unanswered(op: Op, pid: BasicId) {
    match op
    case SetCapacityOp(p, _) => p == pid
    case SetListedOp(p, _) => p == pid
    case SetMasterOp(p, _) => p == pid
    case SetPlayerMetaOp(p, _, _) => p == pid
    case ErasePlayerMetaOp(p, _) => p == pid
    case SetLobbyMetaOp(p, _, _) => p == pid
    case EraseLobbyMetaOp(p, _) => p == pid
    case Relay(p, _, _) => p == pid
    case KickPlayer(p, _) => p == pid
    case RemovePlayer(p, _) => p == pid
    case _ => false
  }

  /** The request that goes with what a session waits for. */
  predicate Awaited(s: Session, op: Op) {
    match s.awaiting
    case Idle => false
    case ForPong => s.pid.Some? && op == AssemblePong(s.pid.value)
    case ForListing => s.pid.None? && op.ListLobbies? && op.ip == s.ip
    case ForAdmission => s.pid.None? && (op.HostLobby? || op.JoinLobby?) && op.ip == s.ip
  }

  /** At most one operation a turn: one of the session's own player, or the request it then waits for. */
  ghost predicate OneRequest(s: Session, p: Progress) {
    && p.session.ip == s.ip && |p.ops| <= 1
    && (p.ops != [] ==> ValidOp(p.ops[0]))
    && (p.session.awaiting.Idle? && p.ops != [] ==> p.session.pid.Some? && Unanswered(p.ops[0], p.session.pid.value))
    && (!p.session.awaiting.Idle? ==>
         !p.session.stop && p.error.None? && p.ops != [] && Awaited(p.session, p.ops[0]))
  }

  lemma EnterOneRequest(s: Session, m: ClientMessage)
    requires s.awaiting.Idle? && s.pid.None? && !s.stop && ValidMessage(m)
    ensures OneRequest(s, Enter(s, m)) && Enter(s, m).session.pid == s.pid
  {
  }

  lemma PlayOneRequest(s: Session, m: ClientMessage, now: real)
    requires s.awaiting.Idle? && s.pid.Some? && !s.stop && ValidMessage(m)
    ensures OneRequest(s, Play(s, s.pid.value, m, now)) && Play(s, s.pid.value, m, now).session.pid == s.pid
  {
  }

  lemma ProcessOneRequest(s: Session, frame: Frame, now: real)
    requires s.awaiting.Idle? && !s.stop && (frame.Text? ==> ValidMessage(frame.msg))
    ensures OneRequest(s, Process(s, frame, now)) && Process(s, frame, now).session.pid == s.pid
  {
    if frame.Text? {
      if s.pid.Some? {
        PlayOneRequest(s, frame.msg, now);
      } else {
        EnterOneRequest(s, frame.msg);
      }
    }
  }

  /** The player a session has after an input. */
  function PidAfter(s: Session, input: Input): Option<BasicId> {
    if input.Answered? && input.reply.Admitted? then Some(input.reply.pid) else s.pid
  }

  lemma HandleOneRequest(s: Session, input: Input, now: real)
    requires Accepts(s, input)
    ensures OneRequest(s, Handle(s, input, now)) && Handle(s, input, now).session.pid == PidAfter(s, input)
  {
    if input.Received? {
      var s2 := s.(payloads := Taken(s.payloads, now, 1), bandwidth := Taken(s.bandwidth, now, input.size));
      ProcessOneRequest(s2, input.frame, now);
    }
  }

  /**
   * The discipline of a session: it issues only valid operations of its own player and waits for at most one
   * answer; a player, once obtained, is kept to the end; a session that ends last of all removes its player; and
   * one that has no player yet writes nothing before it ends.
   */
  ghost predicate DisciplinedTurn(s: Session, input: Input, p: Progress) {
    && p.session.ip == s.ip && p.session.pid == PidAfter(s, input)
    && (forall op :: op in p.ops ==> ValidOp(op))
    && (p.session.awaiting.Idle? ==>
         forall op :: op in p.ops ==> p.session.pid.Some? && Unanswered(op, p.session.pid.value))
    && (!p.session.awaiting.Idle? ==> !p.session.stop && |p.ops| == 1 && Awaited(p.session, p.ops[0]))
    && (p.session.stop && p.session.pid.Some? ==>
         p.ops != [] && p.ops[|p.ops| - 1] == RemovePlayer(p.session.pid.value, p.session.byeReason))
    && (p.session.pid.None? && !p.session.stop && !input.Dequeued? ==> p.sent == [])
  }

  lemma TurnDiscipline(s: Session, input: Input, now: real)
    requires Accepts(s, input)
    ensures DisciplinedTurn(s, input, Turn(s, input, now))
  {
    HandleOneRequest(s, input, now);
    if !input.Dequeued? {
      HandleUntold(s, input, now);
    }
    ConcludeDiscipline(s, input, Handle(s, input, now));
  }

  lemma ConcludeDiscipline(s: Session, input: Input, h: Progress)
    requires OneRequest(s, h) && h.session.pid == PidAfter(s, input)
    requires h.session.pid.None? && !h.session.stop && !input.Dequeued? ==> h.sent == []
    ensures DisciplinedTurn(s, input, Conclude(Farewell(h)))
  {
    FarewellParts(h);
    ConcludedDiscipline(s, input, Farewell(h));
  }

  lemma FarewellParts(h: Progress)
    ensures var f := Farewell(h);
      && f.ops == h.ops && f.session == h.session.(byeReason := f.session.byeReason, stop := f.session.stop)
      && f.session.stop == (h.session.stop || h.error.Some?) && (!f.session.stop ==> f == h)
  {
  }

  lemma ConcludedDiscipline(s: Session, input: Input, f: Progress)
    requires f.session.ip == s.ip && f.session.pid == PidAfter(s, input) && |f.ops| <= 1
    requires forall op :: op in f.ops ==> ValidOp(op)
    requires f.session.awaiting.Idle? && f.ops != [] ==>
      f.session.pid.Some? && Unanswered(f.ops[0], f.session.pid.value)
    requires !f.session.awaiting.Idle? ==> !f.session.stop && f.ops != [] && Awaited(f.session, f.ops[0])
    requires f.session.pid.None? && !f.session.stop && !input.Dequeued? ==> f.sent == []
    ensures DisciplinedTurn(s, input, Conclude(f))
  {
  }

  lemma HandleUntold(s: Session, input: Input, now: real)
    requires Accepts(s, input) && !input.Dequeued?
    ensures var h := Handle(s, input, now); h.session.pid.None? && !h.session.stop ==> h.sent == []
  {
  }
}
