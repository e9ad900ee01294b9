/**
 * Connecting two players directly: each side has a timer and an attempt counter, and the answering side's timer is
 * wound up again by every offer. The measure that shows the end is therefore one over both sides.
 */
module Pair {
  import opened Basics

  const SECOND := 1_000_000_000
  const SDP_TIMEOUT := 7 * SECOND
  const MAX_ATTEMPTS := 3

  /**
   * One client's record of another player. `since` is when it was made, `negotiations` counts the peer connections
   * made for it, and `resets` how often its timer has been wound up.
   */
  datatype Link = Link(
    offerer: bool,
    ourBirth: nat,
    birth: nat,
    deadline: nat,
    attempts: nat,
    since: nat,
    negotiations: nat,
    resets: nat)

  function Wound(l: Link, now: nat): Link {
    l.(deadline := now + SDP_TIMEOUT, resets := l.resets + 1)
  }

  function Renegotiated(l: Link, now: nat): Link {
    Wound(l, now).(negotiations := l.negotiations + 1)
  }

  function Met(offerer: bool, ourBirth: nat, birth: nat, now: nat): Link {
    Renegotiated(Link(offerer, ourBirth, birth, 0, 0, now, 0, 0), now)
  }

  /** The answering side starts over with every description that has come in; the offering side does not. */
  function Drained(l: Link, mail: nat, now: nat): Link {
    if mail == 0 || l.offerer then l else Renegotiated(Drained(l, mail - 1, now), now)
  }

  /** The older of two players stays and lets the other go. */
  predicate MayQuit(l: Link) {
    l.ourBirth >= l.birth
  }

  predicate Quits(l: Link, now: nat) {
    now >= l.deadline && l.attempts >= MAX_ATTEMPTS && MayQuit(l)
  }

  function Checked(l: Link, now: nat): Link {
    if now < l.deadline then l
    else
      var tried := l.(attempts := l.attempts + 1);
      if tried.attempts > MAX_ATTEMPTS then tried
      else if l.offerer then Renegotiated(tried, now)
      else Wound(tried, now)
  }

  function Ticked(l: Link, mail: nat, now: nat): Link {
    Checked(Drained(l, mail, now), now)
  }

  function Ponged(l: Link, now: nat): Link {
    Wound(l.(attempts := 0), now)
  }

  // Two clients and what passes between them.

  datatype Side = Offering | Answering

  /**
   * `sent` offers have been made, of which `queued` wait at the answering client and `taken` have been acted on.
   * `lastTick` is when each client last went round, `lastPong` when it last had a pong; `over` names the client that
   * gave up, if one has.
   */
  datatype Pair = Pair(
    now: nat,
    links: map<Side, Link>,
    lastTick: map<Side, nat>,
    sent: nat,
    queued: nat,
    taken: nat,
    ponged: bool,
    lastPong: map<Side, nat>,
    over: Option<Side>)

  /** `slack` is the longest a client goes without a round, `offering` and `answering` are the players' births. */
  datatype Setting = Setting(slack: nat, offering: nat, answering: nat)

  datatype Event =
    | Wait(to: nat)
    | Meet(side: Side)
    | Emit
    | Arrive
    | Tick(side: Side)
    | Pong(side: Side)

  const APART := Pair(0, map[], map[], 0, 0, 0, false, map[], None)

  /** Each connection of the offering side makes at most one offer; offers may be late or lost, not doubled. */
  predicate Enabled(s: Setting, p: Pair, ev: Event) {
    p.over.None? &&
    match ev
    case Wait(to) => p.now <= to && forall side :: side in p.lastTick ==> to <= p.lastTick[side] + s.slack
    case Meet(side) => side !in p.links
    case Emit => Offering in p.links && p.sent < p.links[Offering].negotiations
    case Arrive => Answering in p.links && p.queued + p.taken < p.sent
    case Tick(side) => side in p.links
    case Pong(side) => side in p.links
  }

  function Births(s: Setting, side: Side): (nat, nat) {
    if side.Offering? then (s.offering, s.answering) else (s.answering, s.offering)
  }

  function Mail(p: Pair, side: Side): nat {
    if side.Offering? then 0 else p.queued
  }

  function Fire(s: Setting, p: Pair, ev: Event): Pair
    requires Enabled(s, p, ev)
  {
    match ev
    case Wait(to) => p.(now := to)
    case Meet(side) =>
      var (ours, theirs) := Births(s, side);
      p.(links := p.links[side := Met(side.Offering?, ours, theirs, p.now)], lastTick := p.lastTick[side := p.now])
    case Emit => p.(sent := p.sent + 1)
    case Arrive => p.(queued := p.queued + 1)
    case Tick(side) =>
      var link := Drained(p.links[side], Mail(p, side), p.now);
      p.(links := p.links[side := Checked(link, p.now)],
         lastTick := p.lastTick[side := p.now],
         queued := if side.Answering? then 0 else p.queued,
         taken := if side.Answering? then p.taken + p.queued else p.taken,
         over := if Quits(link, p.now) then Some(side) else None)
    case Pong(side) =>
      p.(links := p.links[side := Ponged(p.links[side], p.now)], ponged := true,
         lastPong := p.lastPong[side := p.now])
  }

  ghost predicate Next(s: Setting, p: Pair, q: Pair) {
    exists ev :: Enabled(s, p, ev) && q == Fire(s, p, ev)
  }

  ghost predicate NextAt(s: Setting, run: seq<Pair>, i: nat)
    requires i + 1 < |run|
  {
    Next(s, run[i], run[i + 1])
  }

  ghost predicate IsRun(s: Setting, run: seq<Pair>) {
    run != [] && run[0] == APART && forall i: nat :: i + 1 < |run| ==> NextAt(s, run, i)
  }

  // What a round does to a link.

  function Least(a: nat, b: nat): nat {
    if a <= b then a else b
  }

  lemma {:induction false} DrainedIs(l: Link, mail: nat, now: nat)
    ensures Drained(l, mail, now)
      == if mail == 0 || l.offerer then l
         else l.(deadline := now + SDP_TIMEOUT, negotiations := l.negotiations + mail, resets := l.resets + mail)
  {
    if mail > 0 && !l.offerer {
      DrainedIs(l, mail - 1, now);
    }
  }

  // The joint measure.

  /** How often each timer has been wound up without any pong: by meeting, by retrying, and by the other's offers. */
  ghost predicate Accounted(p: Pair) {
    && (Offering in p.links ==>
         var o := p.links[Offering];
         o.offerer && o.resets == o.negotiations == 1 + Least(o.attempts, MAX_ATTEMPTS))
    && (Answering in p.links ==>
         var a := p.links[Answering];
         && !a.offerer && a.negotiations == 1 + p.taken
         && a.resets == 1 + p.taken + Least(a.attempts, MAX_ATTEMPTS))
    && (Answering !in p.links ==> p.queued == p.taken == 0)
    && p.queued + p.taken <= p.sent
    && p.sent <= (if Offering in p.links then p.links[Offering].negotiations else 0)
  }

  lemma FireKeepsAccounts(s: Setting, p: Pair, ev: Event)
    requires Accounted(p) && Enabled(s, p, ev) && !ev.Pong?
    ensures Accounted(Fire(s, p, ev))
  {
    if ev.Tick? {
      DrainedIs(p.links[ev.side], Mail(p, ev.side), p.now);
    }
  }

  // Time.

  /** Each winding comes at most a timeout and a round after the one before, for a client that may quit. */
  ghost predicate OnTime(l: Link, lastTick: nat, span: nat) {
    && l.resets >= 1 && l.deadline >= SDP_TIMEOUT
    && l.deadline - SDP_TIMEOUT <= l.since + (l.resets - 1) * span
    && lastTick < l.deadline
  }

  lemma WoundOnTime(l: Link, lastTick: nat, now: nat, slack: nat)
    requires OnTime(l, lastTick, SDP_TIMEOUT + slack) && lastTick <= now <= lastTick + slack
    ensures OnTime(Wound(l, now), now, SDP_TIMEOUT + slack)
  {
    var span := SDP_TIMEOUT + slack;
    assert l.resets * span == (l.resets - 1) * span + span;
  }

  lemma {:induction false} DrainedOnTime(l: Link, mail: nat, lastTick: nat, now: nat, slack: nat)
    requires OnTime(l, lastTick, SDP_TIMEOUT + slack) && lastTick <= now <= lastTick + slack
    ensures OnTime(Drained(l, mail, now), if mail == 0 || l.offerer then lastTick else now, SDP_TIMEOUT + slack)
  {
    if mail > 0 && !l.offerer {
      DrainedIs(l, mail - 1, now);
      DrainedOnTime(l, mail - 1, lastTick, now, slack);
      WoundOnTime(Drained(l, mail - 1, now), if mail == 1 then lastTick else now, now, slack);
      CountsAside(Wound(Drained(l, mail - 1, now), now), l.negotiations + mail, now, SDP_TIMEOUT + slack);
    }
  }

  /** Neither attempts nor negotiations have to do with time. */
  lemma CountsAside(l: Link, negotiations: nat, lastTick: nat, span: nat)
    ensures OnTime(l, lastTick, span) == OnTime(l.(negotiations := negotiations), lastTick, span)
  {
  }

  lemma TickedOnTime(l: Link, mail: nat, lastTick: nat, now: nat, slack: nat)
    requires OnTime(l, lastTick, SDP_TIMEOUT + slack) && lastTick <= now <= lastTick + slack
    requires MayQuit(l) && !Quits(Drained(l, mail, now), now)
    ensures OnTime(Ticked(l, mail, now), now, SDP_TIMEOUT + slack)
  {
    DrainedIs(l, mail, now);
    DrainedOnTime(l, mail, lastTick, now, slack);
    var d := Drained(l, mail, now);
    if now >= d.deadline {
      WoundOnTime(d, lastTick, now, slack);
    }
  }

  ghost predicate Timely(s: Setting, p: Pair, side: Side)
    requires side in p.links && side in p.lastTick
  {
    && p.lastTick[side] <= p.now <= p.lastTick[side] + s.slack
    && (MayQuit(p.links[side]) && p.over != Some(side) ==>
         OnTime(p.links[side], p.lastTick[side], SDP_TIMEOUT + s.slack))
  }

  ghost predicate AllTimely(s: Setting, p: Pair) {
    && p.links.Keys == p.lastTick.Keys
    && forall side :: side in p.links ==> Timely(s, p, side)
  }

  lemma FireKeepsTimes(s: Setting, p: Pair, ev: Event)
    requires AllTimely(s, p) && Enabled(s, p, ev)
    ensures AllTimely(s, Fire(s, p, ev))
  {
    match ev
    case Tick(side) => TickKeepsTimes(s, p, side);
    case Pong(side) =>
      if MayQuit(p.links[side]) {
        PongedOnTime(p.links[side], p.lastTick[side], p.now, s.slack);
      }
    case Meet(side) => MetOnTime(Fire(s, p, ev).links[side], s.slack);
    case _ =>
  }

  lemma TickKeepsTimes(s: Setting, p: Pair, side: Side)
    requires AllTimely(s, p) && Enabled(s, p, Tick(side))
    ensures AllTimely(s, Fire(s, p, Tick(side)))
  {
    var q := Fire(s, p, Tick(side));
    DrainedIs(p.links[side], Mail(p, side), p.now);
    if MayQuit(p.links[side]) && q.over.None? {
      TickedOnTime(p.links[side], Mail(p, side), p.lastTick[side], p.now, s.slack);
    }
    assert Timely(s, q, side);
    assert forall other :: other in p.links && other != side ==> Timely(s, p, other);
  }

  lemma MetOnTime(l: Link, slack: nat)
    requires l.resets == 1 && l.deadline == l.since + SDP_TIMEOUT
    ensures OnTime(l, l.since, SDP_TIMEOUT + slack)
  {
    assert (l.resets - 1) * (SDP_TIMEOUT + slack) == 0;
  }

  lemma PongedOnTime(l: Link, lastTick: nat, now: nat, slack: nat)
    requires OnTime(l, lastTick, SDP_TIMEOUT + slack) && lastTick <= now <= lastTick + slack
    ensures OnTime(Ponged(l, now), lastTick, SDP_TIMEOUT + slack)
  {
    WoundOnTime(l, lastTick, now, slack);
  }

  // No client gives up early, and no older one at all.

  /** When the client last heard of the other: by its last pong, or when it met it. */
  function Heard(p: Pair, side: Side): nat
    requires side in p.links
  {
    if side in p.lastPong then p.lastPong[side] else p.links[side].since
  }

  /** Four whole timeouts pass before the attempts are used up, counting from the last pong. */
  ghost predicate Patient(l: Link, heard: nat, now: nat) {
    l.since <= heard && heard + (1 + Least(l.attempts, MAX_ATTEMPTS)) * SDP_TIMEOUT <= l.deadline <= now + SDP_TIMEOUT
  }

  ghost predicate PatientSide(s: Setting, p: Pair, side: Side)
    requires side in p.links
  {
    && Patient(p.links[side], Heard(p, side), p.now)
    && (p.links[side].ourBirth, p.links[side].birth) == Births(s, side)
  }

  /** Only a client that may gives up, and only after four timeouts. */
  ghost predicate PatientEnd(p: Pair) {
    p.over.Some? ==>
      && p.over.value in p.links && MayQuit(p.links[p.over.value])
      && Heard(p, p.over.value) + (1 + MAX_ATTEMPTS) * SDP_TIMEOUT <= p.now
  }

  ghost predicate AllPatient(s: Setting, p: Pair) {
    p.lastPong.Keys <= p.links.Keys && (forall side :: side in p.links ==> PatientSide(s, p, side)) && PatientEnd(p)
  }

  lemma TickedPatient(l: Link, mail: nat, heard: nat, now: nat)
    requires Patient(l, heard, now)
    ensures Patient(Ticked(l, mail, now), heard, now)
    ensures Quits(Drained(l, mail, now), now) ==> MayQuit(l) && heard + (1 + MAX_ATTEMPTS) * SDP_TIMEOUT <= now
  {
    DrainedIs(l, mail, now);
  }

  lemma TickedSame(l: Link, mail: nat, now: nat)
    ensures var t := Ticked(l, mail, now); t.since == l.since && t.ourBirth == l.ourBirth && t.birth == l.birth
  {
    DrainedIs(l, mail, now);
  }

  lemma TickKeepsPatience(s: Setting, p: Pair, side: Side, q: Pair)
    requires AllPatient(s, p) && Enabled(s, p, Tick(side)) && q == Fire(s, p, Tick(side))
    ensures PatientSide(s, q, side) && PatientEnd(q)
  {
    assert PatientSide(s, p, side);
    TickedPatient(p.links[side], Mail(p, side), Heard(p, side), p.now);
    TickedSame(p.links[side], Mail(p, side), p.now);
    assert q.links[side] == Ticked(p.links[side], Mail(p, side), p.now);
    assert Heard(q, side) == Heard(p, side);
  }

  lemma SideKeepsPatience(s: Setting, p: Pair, ev: Event, q: Pair, side: Side)
    requires AllPatient(s, p) && Enabled(s, p, ev) && q == Fire(s, p, ev) && side in q.links
    ensures PatientSide(s, q, side)
  {
    if ev == Tick(side) {
      TickKeepsPatience(s, p, side, q);
    } else if side in p.links {
      assert PatientSide(s, p, side);
    }
  }

  lemma FireKeepsPatience(s: Setting, p: Pair, ev: Event, q: Pair)
    requires AllPatient(s, p) && Enabled(s, p, ev) && q == Fire(s, p, ev)
    ensures AllPatient(s, q)
  {
    forall side | side in q.links ensures PatientSide(s, q, side) {
      SideKeepsPatience(s, p, ev, q, side);
    }
    if ev.Tick? {
      TickKeepsPatience(s, p, ev.side, q);
    }
  }

  // Whole runs.

  lemma NextKeepsTimes(s: Setting, p: Pair, q: Pair)
    requires AllTimely(s, p) && Next(s, p, q)
    ensures AllTimely(s, q)
  {
    var ev :| Enabled(s, p, ev) && q == Fire(s, p, ev);
    FireKeepsTimes(s, p, ev);
  }

  lemma {:induction false} RunsAreTimely(s: Setting, run: seq<Pair>, i: nat)
    requires IsRun(s, run) && i < |run|
    ensures AllTimely(s, run[i])
  {
    if i > 0 {
      RunsAreTimely(s, run, i - 1);
      assert NextAt(s, run, i - 1);
      NextKeepsTimes(s, run[i - 1], run[i]);
    }
  }

  lemma NextKeepsAccounts(s: Setting, p: Pair, q: Pair)
    requires (!p.ponged ==> Accounted(p)) && Next(s, p, q)
    ensures !q.ponged ==> Accounted(q)
  {
    var ev :| Enabled(s, p, ev) && q == Fire(s, p, ev);
    if !q.ponged {
      FireKeepsAccounts(s, p, ev);
    }
  }

  lemma {:induction false} RunsAreAccounted(s: Setting, run: seq<Pair>, i: nat)
    requires IsRun(s, run) && i < |run|
    ensures !run[i].ponged ==> Accounted(run[i])
  {
    if i > 0 {
      RunsAreAccounted(s, run, i - 1);
      assert NextAt(s, run, i - 1);
      NextKeepsAccounts(s, run[i - 1], run[i]);
    }
  }

  lemma NextKeepsPatience(s: Setting, p: Pair, q: Pair)
    requires AllPatient(s, p) && Next(s, p, q)
    ensures AllPatient(s, q)
  {
    var ev :| Enabled(s, p, ev) && q == Fire(s, p, ev);
    FireKeepsPatience(s, p, ev, Fire(s, p, ev));
  }

  lemma {:induction false} RunsArePatient(s: Setting, run: seq<Pair>, i: nat)
    requires IsRun(s, run) && i < |run|
    ensures AllPatient(s, run[i])
  {
    if i > 0 {
      RunsArePatient(s, run, i - 1);
      assert NextAt(s, run, i - 1);
      NextKeepsPatience(s, run[i - 1], run[i]);
    }
  }

  /**
   * Pongs or not: a strictly older client never gives up on the other, and no client before it has known the other for
   * four whole timeouts of seven seconds, and has had no pong for as long.
   */
  lemma OnlyTheNewerGivesUp(s: Setting, run: seq<Pair>, i: nat, side: Side)
    requires IsRun(s, run) && i < |run| && run[i].over == Some(side)
    ensures var (ours, theirs) := Births(s, side); ours >= theirs
    ensures side in run[i].links && run[i].now >= run[i].links[side].since + 28 * SECOND
    ensures side in run[i].lastPong ==> run[i].now >= run[i].lastPong[side] + 28 * SECOND
  {
    RunsArePatient(s, run, i);
  }

  /** A pong keeps the connection for a whole timeout, whatever comes in, and gives back all attempts. */
  lemma PongKeepsIt(l: Link, t: nat, mail: nat, now: nat)
    requires t <= now < t + 7 * SECOND
    ensures !Quits(Drained(Ponged(l, t), mail, now), now)
    ensures Ticked(Ponged(l, t), mail, now) == Drained(Ponged(l, t), mail, now)
    ensures Ticked(Ponged(l, t), mail, now).attempts == 0
  {
    DrainedIs(Ponged(l, t), mail, now);
  }

  function MostResets(side: Side): nat {
    if side.Offering? then 4 else 8
  }

  /**
   * Without a pong the offering side starts at most 4 negotiations and the answering side sets its timer at most 8
   * times.
   */
  lemma FewNegotiations(s: Setting, run: seq<Pair>, i: nat)
    requires IsRun(s, run) && i < |run| && !run[i].ponged
    ensures Offering in run[i].links ==> run[i].links[Offering].negotiations <= 4
    ensures forall side :: side in run[i].links ==> run[i].links[side].resets <= MostResets(side)
    ensures run[i].sent <= 4
  {
    RunsAreAccounted(s, run, i);
  }

  /**
   * Without a pong, a client whose birth is the larger or the same goes on for less than eight timeouts and rounds
   * (four on the offering side): by then it has given up, or the other one has.
   */
  lemma GivesUpInTime(s: Setting, run: seq<Pair>, i: nat, side: Side)
    requires IsRun(s, run) && i < |run| && !run[i].ponged && run[i].over.None?
    requires side in run[i].links && MayQuit(run[i].links[side])
    ensures run[i].now < run[i].links[side].since + MostResets(side) * (SDP_TIMEOUT + s.slack)
  {
    RunsAreTimely(s, run, i);
    FewNegotiations(s, run, i);
    var l := run[i].links[side];
    assert Timely(s, run[i], side);
    StillWithin(l, run[i].lastTick[side], run[i].now, s.slack, MostResets(side));
  }

  lemma StillWithin(l: Link, lastTick: nat, now: nat, slack: nat, most: nat)
    requires OnTime(l, lastTick, SDP_TIMEOUT + slack) && now <= lastTick + slack && l.resets <= most
    ensures now < l.since + most * (SDP_TIMEOUT + slack)
  {
    var span := SDP_TIMEOUT + slack;
    assert (l.resets - 1) * span + span == l.resets * span;
    assert l.resets * span <= most * span;
  }

  /** Once both know of each other, one of them gives up within eight timeouts and rounds, unless a pong comes. */
  lemma PairsEnd(s: Setting, run: seq<Pair>, i: nat)
    requires IsRun(s, run) && i < |run| && !run[i].ponged && run[i].over.None?
    requires Offering in run[i].links && Answering in run[i].links
    ensures exists side ::
      && side in run[i].links && MayQuit(run[i].links[side])
      && run[i].now < run[i].links[side].since + 8 * (SDP_TIMEOUT + s.slack)
  {
    RunsArePatient(s, run, i);
    var side := if s.offering >= s.answering then Offering else Answering;
    assert MayQuit(run[i].links[side]);
    GivesUpInTime(s, run, i, side);
  }

  // From any moment on, whatever pongs came before.

  /** Offers are taken no sooner than they are made, nor made more often than negotiations have begun. */
  ghost predicate Posted(p: Pair) {
    && (Offering in p.links ==> p.links[Offering].offerer)
    && (Answering in p.links ==> !p.links[Answering].offerer)
    && (Answering !in p.links ==> p.queued == p.taken == 0)
    && p.queued + p.taken <= p.sent
    && p.sent <= (if Offering in p.links then p.links[Offering].negotiations else 0)
  }

  lemma FireKeepsPosted(s: Setting, p: Pair, ev: Event)
    requires Posted(p) && Enabled(s, p, ev)
    ensures Posted(Fire(s, p, ev))
  {
    if ev.Tick? {
      DrainedIs(p.links[ev.side], Mail(p, ev.side), p.now);
    }
  }

  lemma NextKeepsPosted(s: Setting, p: Pair, q: Pair)
    requires Posted(p) && Next(s, p, q)
    ensures Posted(q)
  {
    var ev :| Enabled(s, p, ev) && q == Fire(s, p, ev);
    FireKeepsPosted(s, p, ev);
  }

  lemma {:induction false} RunsArePosted(s: Setting, run: seq<Pair>, i: nat)
    requires IsRun(s, run) && i < |run|
    ensures Posted(run[i])
  {
    if i > 0 {
      RunsArePosted(s, run, i - 1);
      assert NextAt(s, run, i - 1);
      NextKeepsPosted(s, run[i - 1], run[i]);
    }
  }

  ghost predicate BothMet(p: Pair) {
    Offering in p.links && Answering in p.links
  }

  /** Since `p0` each timer has been wound up by retrying and by the other's offers only. */
  ghost predicate Tallied(p0: Pair, p: Pair) {
    && BothMet(p0) && BothMet(p) && Posted(p) && p0.taken <= p.taken
    && var o0, o, a0, a := p0.links[Offering], p.links[Offering], p0.links[Answering], p.links[Answering];
    && o.negotiations + Least(o0.attempts, MAX_ATTEMPTS) == o0.negotiations + Least(o.attempts, MAX_ATTEMPTS)
    && o.resets + Least(o0.attempts, MAX_ATTEMPTS) == o0.resets + Least(o.attempts, MAX_ATTEMPTS)
    && a.resets + p0.taken + Least(a0.attempts, MAX_ATTEMPTS) == a0.resets + p.taken + Least(a.attempts, MAX_ATTEMPTS)
  }

  lemma FireKeepsTally(s: Setting, p0: Pair, p: Pair, ev: Event)
    requires Tallied(p0, p) && Enabled(s, p, ev) && !ev.Pong?
    ensures Tallied(p0, Fire(s, p, ev))
  {
    FireKeepsPosted(s, p, ev);
    if ev.Tick? {
      DrainedIs(p.links[ev.side], Mail(p, ev.side), p.now);
    }
  }

  /** The same record, as if it had been made at `t0` with its timer wound up then for the first time. */
  function Rebased(l: Link, t0: nat, before: nat): Link
    requires before <= l.resets
  {
    l.(since := t0, resets := l.resets - before + 1)
  }

  lemma RebasedTicks(l: Link, mail: nat, now: nat, t0: nat, before: nat)
    requires before <= l.resets
    ensures before <= Drained(l, mail, now).resets && before <= Ticked(l, mail, now).resets
    ensures Drained(Rebased(l, t0, before), mail, now) == Rebased(Drained(l, mail, now), t0, before)
    ensures Ticked(Rebased(l, t0, before), mail, now) == Rebased(Ticked(l, mail, now), t0, before)
  {
    DrainedIs(l, mail, now);
    DrainedIs(Rebased(l, t0, before), mail, now);
  }

  /** `p` with both records rebased to the time of `p0`. */
  function Reckoned(p0: Pair, p: Pair): Pair
    requires BothMet(p) && BothMet(p0)
    requires p0.links[Offering].resets <= p.links[Offering].resets
    requires p0.links[Answering].resets <= p.links[Answering].resets
  {
    p.(links := map[
      Offering := Rebased(p.links[Offering], p0.now, p0.links[Offering].resets),
      Answering := Rebased(p.links[Answering], p0.now, p0.links[Answering].resets)])
  }

  ghost predicate Later(p0: Pair, p: Pair) {
    && BothMet(p0) && BothMet(p)
    && p0.links[Offering].resets <= p.links[Offering].resets
    && p0.links[Answering].resets <= p.links[Answering].resets
  }

  lemma ReckonedTick(s: Setting, p0: Pair, p: Pair, side: Side, q: Pair, x: Pair)
    requires Later(p0, p) && Enabled(s, p, Tick(side)) && q == Fire(s, p, Tick(side)) && x == Reckoned(p0, p)
    ensures Later(p0, q) && Enabled(s, x, Tick(side)) && Fire(s, x, Tick(side)) == Reckoned(p0, q)
  {
    var l, before := p.links[side], p0.links[side].resets;
    RebasedTicks(l, Mail(p, side), p.now, p0.now, before);
    assert x.links[side] == Rebased(l, p0.now, before);
    assert q.links[side] == Ticked(l, Mail(p, side), p.now);
    assert Fire(s, x, Tick(side)).links == Reckoned(p0, q).links;
  }

  lemma ReckonedOther(s: Setting, p0: Pair, p: Pair, ev: Event, q: Pair, x: Pair)
    requires Later(p0, p) && Enabled(s, p, ev) && q == Fire(s, p, ev) && x == Reckoned(p0, p)
    requires ev.Wait? || ev.Emit? || ev.Arrive?
    ensures Later(p0, q) && Enabled(s, x, ev) && Fire(s, x, ev) == Reckoned(p0, q)
  {
    assert q.links == p.links;
  }

  /** A step that is not a pong is the same step when one reckons from `p0`. */
  lemma ReckonedStep(s: Setting, p0: Pair, p: Pair, ev: Event, q: Pair, x: Pair)
    requires Later(p0, p) && Enabled(s, p, ev) && !ev.Pong? && q == Fire(s, p, ev) && x == Reckoned(p0, p)
    ensures Later(p0, q) && Enabled(s, x, ev) && Fire(s, x, ev) == Reckoned(p0, q)
  {
    if ev.Tick? {
      ReckonedTick(s, p0, p, ev.side, q, x);
    } else {
      ReckonedOther(s, p0, p, ev, q, x);
    }
  }

  ghost predicate PonglessStep(s: Setting, p: Pair, q: Pair) {
    exists ev :: Enabled(s, p, ev) && !ev.Pong? && q == Fire(s, p, ev)
  }

  ghost predicate PonglessRun(s: Setting, run: seq<Pair>, i: nat, j: nat) {
    j < |run| && forall k: nat :: i <= k < j ==> PonglessStep(s, run[k], run[k + 1])
  }

  /** Both accounts, of windings and of time, kept since `p0`. */
  ghost predicate Reckons(s: Setting, p0: Pair, p: Pair) {
    Tallied(p0, p) && Later(p0, p) && AllTimely(s, Reckoned(p0, p))
  }

  lemma StepReckons(s: Setting, p0: Pair, p: Pair, q: Pair)
    requires Reckons(s, p0, p) && PonglessStep(s, p, q)
    ensures Reckons(s, p0, q)
  {
    var ev :| Enabled(s, p, ev) && !ev.Pong? && q == Fire(s, p, ev);
    FireKeepsTally(s, p0, p, ev);
    ReckonedStep(s, p0, p, ev, q, Reckoned(p0, p));
    FireKeepsTimes(s, Reckoned(p0, p), ev);
  }

  lemma SideReckons(s: Setting, p0: Pair, side: Side, l: Link, x: Pair)
    requires side in p0.links && side in p0.lastTick && l == p0.links[side] && Timely(s, p0, side)
    requires BothMet(p0) && p0.over.None? && l.deadline <= p0.now + SDP_TIMEOUT && x == Reckoned(p0, p0)
    ensures Timely(s, x, side)
  {
    var span := SDP_TIMEOUT + s.slack;
    assert x.links[side] == l.(since := p0.now, resets := 1);
    assert (1 - 1) * span == 0;
  }

  lemma TallyStarts(p0: Pair)
    requires Posted(p0) && BothMet(p0)
    ensures Tallied(p0, p0) && Later(p0, p0)
  {
  }

  lemma TimesStart(s: Setting, p0: Pair, x: Pair)
    requires AllTimely(s, p0) && BothMet(p0) && p0.over.None? && x == Reckoned(p0, p0)
    requires forall side :: side in p0.links ==> PatientSide(s, p0, side)
    ensures AllTimely(s, x)
  {
    forall side | side in x.links ensures Timely(s, x, side) {
      assert PatientSide(s, p0, side) && Timely(s, p0, side);
      SideReckons(s, p0, side, p0.links[side], x);
    }
  }

  lemma ReckoningStarts(s: Setting, p0: Pair)
    requires AllTimely(s, p0) && AllPatient(s, p0) && Posted(p0) && BothMet(p0) && p0.over.None?
    ensures Reckons(s, p0, p0)
  {
    TallyStarts(p0);
    TimesStart(s, p0, Reckoned(p0, p0));
  }

  lemma {:induction false} RunReckons(s: Setting, run: seq<Pair>, i: nat, j: nat, p: Pair)
    requires IsRun(s, run) && i <= j && PonglessRun(s, run, i, j) && p == run[j]
    requires BothMet(run[i]) && run[i].over.None?
    ensures Reckons(s, run[i], p)
    decreases j
  {
    if i == j {
      RunsAreTimely(s, run, i);
      RunsArePatient(s, run, i);
      RunsArePosted(s, run, i);
      ReckoningStarts(s, p);
    } else {
      RunReckons(s, run, i, j - 1, run[j - 1]);
      StepReckons(s, run[i], run[j - 1], p);
    }
  }

  /** How often a side's timer can still be wound up: by its own retries, and by offers already begun or yet to come. */
  function StillToCome(p: Pair, side: Side): nat
    requires BothMet(p) && p.taken <= p.links[Offering].negotiations
  {
    if side.Offering? then 4 else 7 + p.links[Offering].negotiations - p.taken
  }

  /**
   * Pongs or not: from any moment on, a client that may give up goes on without a further pong for less than four
   * timeouts and rounds on the offering side, and on the answering side for seven and one for each offer not taken.
   */
  lemma GivesUpAfterTheLastPong(s: Setting, run: seq<Pair>, i: nat, j: nat, side: Side, p0: Pair, p: Pair)
    requires IsRun(s, run) && i <= j && PonglessRun(s, run, i, j) && p0 == run[i] && p == run[j]
    requires BothMet(p0) && p0.over.None? && p.over.None? && side in p.links && MayQuit(p.links[side])
    ensures p0.taken <= p0.links[Offering].negotiations
    ensures p.now < p0.now + StillToCome(p0, side) * (SDP_TIMEOUT + s.slack)
  {
    RunsArePosted(s, run, i);
    RunReckons(s, run, i, j, p);
    var l := Reckoned(p0, p).links[side];
    assert Timely(s, Reckoned(p0, p), side);
    assert l.resets <= StillToCome(p0, side);
    StillWithin(l, p.lastTick[side], p.now, s.slack, StillToCome(p0, side));
  }

  // With equal births, either.

  ghost predicate Reachable(s: Setting, p: Pair) {
    exists run :: IsRun(s, run) && run[|run| - 1] == p
  }

  lemma ApartIsReachable(s: Setting)
    ensures Reachable(s, APART)
  {
    assert IsRun(s, [APART]);
  }

  lemma OneMoreStep(s: Setting, p: Pair, ev: Event)
    requires Reachable(s, p) && Enabled(s, p, ev)
    ensures Reachable(s, Fire(s, p, ev))
  {
    var run :| IsRun(s, run) && run[|run| - 1] == p;
    var longer := run + [Fire(s, p, ev)];
    forall i: nat | i + 1 < |longer| ensures NextAt(s, longer, i) {
      if i + 1 < |run| {
        assert NextAt(s, run, i);
      }
    }
    assert IsRun(s, longer);
  }

  /** A timeout goes by, and then the client goes round. */
  function Lapse(s: Setting, p: Pair, side: Side): Pair
    requires Enabled(s, p, Wait(p.now + SDP_TIMEOUT)) && side in p.links
  {
    Fire(s, Fire(s, p, Wait(p.now + SDP_TIMEOUT)), Tick(side))
  }

  /** Both have met, the client's timer is fresh, and no offer has been made. */
  ghost predicate Waiting(s: Setting, p: Pair, side: Side, attempts: nat) {
    && Reachable(s, p) && p.over.None? && p.queued == 0 && !p.ponged
    && Offering in p.links && Answering in p.links && side in p.links
    && p.links[side].attempts == attempts && p.links[side].deadline == p.now + SDP_TIMEOUT && MayQuit(p.links[side])
    && p.now == attempts * SDP_TIMEOUT
    && p.lastTick.Keys == {Offering, Answering}
    && s.slack == (1 + MAX_ATTEMPTS) * SDP_TIMEOUT
  }

  lemma LapseWaits(s: Setting, p: Pair, side: Side, attempts: nat)
    requires Waiting(s, p, side, attempts) && attempts <= MAX_ATTEMPTS
    ensures Enabled(s, p, Wait(p.now + SDP_TIMEOUT))
    ensures Reachable(s, Lapse(s, p, side)) && !Lapse(s, p, side).ponged
    ensures attempts < MAX_ATTEMPTS ==> Waiting(s, Lapse(s, p, side), side, attempts + 1)
    ensures attempts == MAX_ATTEMPTS ==> Lapse(s, p, side).over == Some(side)
  {
    var waited := p.(now := p.now + SDP_TIMEOUT);
    OneMoreStep(s, p, Wait(p.now + SDP_TIMEOUT));
    OneMoreStep(s, waited, Tick(side));
  }

  /** The players have the same birth, no pong comes, and the given side gives up in the end. */
  ghost predicate EqualsEnd(s: Setting, run: seq<Pair>, birth: nat, side: Side) {
    && s.offering == s.answering == birth && IsRun(s, run)
    && run[|run| - 1].over == Some(side) && !run[|run| - 1].ponged
  }

  /** Of two clients with equal births either may be the one to give up. */
  lemma EitherOfEqualsMayGiveUp(birth: nat, side: Side)
    ensures exists s, run :: EqualsEnd(s, run, birth, side)
  {
    var s := Setting((1 + MAX_ATTEMPTS) * SDP_TIMEOUT, birth, birth);
    ApartIsReachable(s);
    OneMoreStep(s, APART, Meet(Offering));
    var p := Fire(s, APART, Meet(Offering));
    OneMoreStep(s, p, Meet(Answering));
    var p0 := Fire(s, p, Meet(Answering));
    assert Waiting(s, p0, side, 0);
    LapseWaits(s, p0, side, 0);
    var p1 := Lapse(s, p0, side);
    LapseWaits(s, p1, side, 1);
    var p2 := Lapse(s, p1, side);
    LapseWaits(s, p2, side, 2);
    var p3 := Lapse(s, p2, side);
    LapseWaits(s, p3, side, 3);
    var run :| IsRun(s, run) && run[|run| - 1] == Lapse(s, p3, side);
    assert EqualsEnd(s, run, birth, side);
  }

  // The record itself, updated in place.

  class Player {
    const offerer: bool
    const ourBirth: nat
    const birth: nat
    var sdpTimeout: nat
    var renegotiationAttempts: nat
    ghost const since: nat
    ghost var negotiations: nat
    ghost var resets: nat

    ghost function View(): Link
      reads this
    {
      Link(offerer, ourBirth, birth, sdpTimeout, renegotiationAttempts, since, negotiations, resets)
    }

    /** A player who has just joined: its first negotiation starts at once. */
    constructor (offerer: bool, ourBirth: nat, birth: nat, now: nat)
      ensures View() == Met(offerer, ourBirth, birth, now)
    {
      this.offerer, this.ourBirth, this.birth, since := offerer, ourBirth, birth, now;
      sdpTimeout, renegotiationAttempts, negotiations, resets := 0, 0, 0, 0;
      new;
      Renegotiate(now);
    }

    method ResetTimeout(now: nat)
      modifies this
      ensures View() == Wound(old(View()), now)
    {
      sdpTimeout, resets := now + SDP_TIMEOUT, resets + 1;
    }

    method Renegotiate(now: nat)
      modifies this
      ensures View() == Renegotiated(old(View()), now)
    {
      ResetTimeout(now);
      negotiations := negotiations + 1;
    }

    method OnPong(now: nat)
      modifies this
      ensures View() == Ponged(old(View()), now)
    {
      renegotiationAttempts := 0;
      ResetTimeout(now);
    }

    /** The descriptions that have come in, one after another. */
    method Drain(descriptions: seq<Text>, now: nat)
      modifies this
      ensures View() == Drained(old(View()), |descriptions|, now)
    {
      for i := 0 to |descriptions|
        invariant View() == Drained(old(View()), i, now)
      {
        DrainedIs(old(View()), i, now);
        if !offerer {
          Renegotiate(now);
        }
      }
    }

    /** Trying again when the timer has run out, or giving up. */
    method Check(now: nat) returns (quit: bool)
      modifies this
      ensures View() == Checked(old(View()), now) && quit == Quits(old(View()), now)
    {
      quit := false;
      if now >= sdpTimeout {
        renegotiationAttempts := renegotiationAttempts + 1;
        if renegotiationAttempts > MAX_ATTEMPTS {
          quit := ourBirth >= birth;
        } else if offerer {
          Renegotiate(now);
        } else {
          ResetTimeout(now);
        }
      }
    }
  }

  /**
   * The client's round over all other players: it ends at the first on whom the client gives up. Every player before
   * has been through a whole round of its own, and no player after has been touched.
   */
  method Round(players: seq<Player>, mail: seq<seq<Text>>, now: nat) returns (done: nat, quit: bool)
    requires |mail| == |players|
    requires forall i, j :: 0 <= i < j < |players| ==> players[i] != players[j]
    modifies players
    ensures done <= |players| && (quit ==> done < |players|) && (!quit ==> done == |players|)
    ensures forall i :: 0 <= i < |players| && (i < done || (quit && i == done)) ==>
      players[i].View() == Ticked(old(players[i].View()), |mail[i]|, now)
    ensures forall i :: 0 <= i < |players| ==>
      (Quits(Drained(old(players[i].View()), |mail[i]|, now), now) && i <= done ==> quit && i == done)
    ensures quit ==> Quits(Drained(old(players[done].View()), |mail[done]|, now), now)
    ensures forall i :: done < i < |players| ==> players[i].View() == old(players[i].View())
  {
    done, quit := 0, false;
    while done < |players|
      invariant done <= |players|
      invariant forall i :: 0 <= i < done ==>
        && players[i].View() == Ticked(old(players[i].View()), |mail[i]|, now)
        && !Quits(Drained(old(players[i].View()), |mail[i]|, now), now)
      invariant forall i :: done <= i < |players| ==> players[i].View() == old(players[i].View())
    {
      players[done].Drain(mail[done], now);
      quit := players[done].Check(now);
      if quit {
        return;
      }
      done := done + 1;
    }
  }
}
