/** A session's own budgets, over its life: the frames it looks at, their bytes, and the signals it passes on. */
module Allowances {
  import opened Basics
  import opened Tokens
  import opened Server
  import opened Sessions
  import opened SessionLoop

  datatype Meter = Payloads | Bandwidth | Relays

  function Rate(m: Meter): real {
    match m
    case Payloads => 30.0
    case Bandwidth => 4096.0
    case Relays => 20.0
  }

  function Cap(m: Meter): real {
    match m
    case Payloads => 60.0
    case Bandwidth => 12288.0
    case Relays => 80.0
  }

  /** What a budget refills to; at first it holds more. */
  function Steady(m: Meter): real {
    match m
    case Payloads => 30.0
    case Bandwidth => 4096.0
    case Relays => 20.0
  }

  function Gauge(s: Session, m: Meter): Bucket {
    match m
    case Payloads => s.payloads
    case Bandwidth => s.bandwidth
    case Relays => s.relays
  }

  // What is let through.

  /** A frame that both budgets let through, and that is then looked at. */
  predicate Opens(s: Session, t: Timed) {
    t.input.Received? && Allows(s.payloads, t.now, 1) && Allows(s.bandwidth, t.now, t.input.size)
  }

  /** The frames looked at in a session's life. */
  function Opened(s: Session, inputs: seq<Timed>): seq<Timed>
    decreases |inputs|
  {
    if inputs == [] || s.stop then []
    else
      (if Opens(s, inputs[0]) then [inputs[0]] else [])
      + Opened(Turn(s, inputs[0].input, inputs[0].now).session, inputs[1..])
  }

  function Bytes(frames: seq<Timed>): nat {
    if frames == [] then 0
    else (if frames[0].input.Received? then frames[0].input.size else 0) + Bytes(frames[1..])
  }

  /** How many signals are passed on. */
  function Passes(ops: seq<Op>): nat {
    if ops == [] then 0 else (if ops[0].Relay? then 1 else 0) + Passes(ops[1..])
  }

  lemma {:induction false} PassesConcat(a: seq<Op>, b: seq<Op>)
    ensures Passes(a + b) == Passes(a) + Passes(b)
  {
    if a == [] {
      assert a + b == b;
    } else {
      PassesConcat(a[1..], b);
      assert (a + b)[0] == a[0] && (a + b)[1..] == a[1..] + b;
    }
  }

  lemma BytesOfFirst(t: Timed, rest: seq<Timed>)
    ensures Bytes([t] + rest) == (if t.input.Received? then t.input.size else 0) + Bytes(rest)
  {
    assert ([t] + rest)[1..] == rest;
  }

  // What is charged.

  predicate Signals(s: Session, t: Timed) {
    Opens(s, t) && t.input.frame.Text? && t.input.frame.msg.Pass? && s.pid.Some?
  }

  /** What a turn asks of a budget. What the first refuses never comes to the second, nor what that does to the last. */
  function Asked(s: Session, m: Meter, t: Timed): Option<nat> {
    match m
    case Payloads => if t.input.Received? then Some(1) else None
    case Bandwidth => if t.input.Received? && Allows(s.payloads, t.now, 1) then Some(t.input.size) else None
    case Relays => if Signals(s, t) then Some(1) else None
  }

  function Calls(s: Session, m: Meter, inputs: seq<Timed>): seq<Call>
    decreases |inputs|
  {
    if inputs == [] || s.stop then []
    else
      var asked := Asked(s, m, inputs[0]);
      (if asked.Some? then [Call(inputs[0].now, asked.value)] else [])
      + Calls(Turn(s, inputs[0].input, inputs[0].now).session, m, inputs[1..])
  }

  lemma HandlingCharges(s: Session, m: Meter, t: Timed, h: Progress)
    requires h == Handle(s, t.input, t.now)
    ensures Gauge(h.session, m)
      == if Asked(s, m, t).Some? then Taken(Gauge(s, m), t.now, Asked(s, m, t).value) else Gauge(s, m)
  {
  }

  lemma TurnCharges(s: Session, m: Meter, t: Timed)
    ensures Gauge(Turn(s, t.input, t.now).session, m)
      == if Asked(s, m, t).Some? then Taken(Gauge(s, m), t.now, Asked(s, m, t).value) else Gauge(s, m)
  {
    var h := Handle(s, t.input, t.now);
    HandlingCharges(s, m, t, h);
    FarewellParts(h);
    TurnParts(s, t.input, t.now);
  }

  lemma HandlingPasses(s: Session, t: Timed, h: Progress)
    requires h == Handle(s, t.input, t.now)
    ensures Passes(h.ops) == if Signals(s, t) && Allows(s.relays, t.now, 1) then 1 else 0
  {
  }

  lemma LastWordsPassNothing(s: Session)
    ensures Passes(LastWords(s)) == 0
  {
  }

  lemma TurnPasses(s: Session, t: Timed)
    ensures Passes(Turn(s, t.input, t.now).ops) == if Signals(s, t) && Allows(s.relays, t.now, 1) then 1 else 0
  {
    var h := Handle(s, t.input, t.now);
    HandlingPasses(s, t, h);
    TurnParts(s, t.input, t.now);
    LastWordsPassNothing(Farewell(h).session);
    PassesConcat(h.ops, LastWords(Farewell(h).session));
  }

  lemma SpentOnFirst(b: Bucket, c: Call, rest: seq<Call>)
    ensures Spent(b, [c] + rest)
      == (if Allows(b, c.at, c.count) then c.count else 0) + Spent(Taken(b, c.at, c.count), rest)
    ensures After(b, [c] + rest) == After(Taken(b, c.at, c.count), rest)
  {
    assert ([c] + rest)[1..] == rest;
  }

  /** A budget is the bucket that its calls make of it. */
  lemma {:induction false} GaugeIsAfter(s: Session, m: Meter, inputs: seq<Timed>)
    ensures Gauge(Life(s, inputs).session, m) == After(Gauge(s, m), Calls(s, m, inputs))
    decreases |inputs|
  {
    if inputs != [] && !s.stop {
      var t, next := inputs[0], Turn(s, inputs[0].input, inputs[0].now).session;
      TurnCharges(s, m, t);
      GaugeIsAfter(next, m, inputs[1..]);
      if Asked(s, m, t).Some? {
        SpentOnFirst(Gauge(s, m), Call(t.now, Asked(s, m, t).value), Calls(next, m, inputs[1..]));
      } else {
        assert Calls(s, m, inputs) == Calls(next, m, inputs[1..]);
      }
    }
  }

  function SpentOver(s: Session, m: Meter, inputs: seq<Timed>): nat {
    Spent(Gauge(s, m), Calls(s, m, inputs))
  }

  lemma SpentGoesOn(s: Session, m: Meter, inputs: seq<Timed>)
    requires inputs != [] && !s.stop
    ensures var t, next := inputs[0], Turn(s, inputs[0].input, inputs[0].now).session;
      SpentOver(s, m, inputs) == SpentOver(next, m, inputs[1..])
        + if Asked(s, m, t).Some? && Allows(Gauge(s, m), t.now, Asked(s, m, t).value) then Asked(s, m, t).value else 0
  {
    var t, next := inputs[0], Turn(s, inputs[0].input, inputs[0].now).session;
    TurnCharges(s, m, t);
    if Asked(s, m, t).Some? {
      SpentOnFirst(Gauge(s, m), Call(t.now, Asked(s, m, t).value), Calls(next, m, inputs[1..]));
    } else {
      assert Calls(s, m, inputs) == Calls(next, m, inputs[1..]);
    }
  }

  lemma FramesGoOn(s: Session, inputs: seq<Timed>, p: Progress)
    requires inputs != [] && !s.stop && p == Turn(s, inputs[0].input, inputs[0].now)
    requires |Opened(p.session, inputs[1..])| <= SpentOver(p.session, Payloads, inputs[1..])
    requires Bytes(Opened(p.session, inputs[1..])) == SpentOver(p.session, Bandwidth, inputs[1..])
    ensures |Opened(s, inputs)| <= SpentOver(s, Payloads, inputs)
    ensures Bytes(Opened(s, inputs)) == SpentOver(s, Bandwidth, inputs)
  {
    var rest := Opened(p.session, inputs[1..]);
    SpentGoesOn(s, Payloads, inputs);
    SpentGoesOn(s, Bandwidth, inputs);
    BytesOfFirst(inputs[0], rest);
    assert [] + rest == rest;
  }

  lemma SignalsGoOn(s: Session, inputs: seq<Timed>, p: Progress)
    requires inputs != [] && !s.stop && p == Turn(s, inputs[0].input, inputs[0].now)
    requires Passes(Life(p.session, inputs[1..]).ops) == SpentOver(p.session, Relays, inputs[1..])
    ensures Passes(Life(s, inputs).ops) == SpentOver(s, Relays, inputs)
  {
    SpentGoesOn(s, Relays, inputs);
    TurnPasses(s, inputs[0]);
    LifeGoesOn(s, inputs);
    PassesConcat(p.ops, Life(p.session, inputs[1..]).ops);
  }

  /** Whatever is let through has been paid for. */
  lemma {:induction false} NothingUnpaid(s: Session, inputs: seq<Timed>)
    ensures |Opened(s, inputs)| <= SpentOver(s, Payloads, inputs)
    ensures Bytes(Opened(s, inputs)) == SpentOver(s, Bandwidth, inputs)
    ensures Passes(Life(s, inputs).ops) == SpentOver(s, Relays, inputs)
    decreases |inputs|
  {
    if inputs != [] && !s.stop {
      var p := Turn(s, inputs[0].input, inputs[0].now);
      NothingUnpaid(p.session, inputs[1..]);
      FramesGoOn(s, inputs, p);
      SignalsGoOn(s, inputs, p);
    }
  }

  // Windows.

  predicate Spans(inputs: seq<Timed>, from: real, until: real) {
    && (forall i :: 0 <= i < |inputs| ==> from <= inputs[i].now <= until)
    && (forall i, j :: 0 <= i < j < |inputs| ==> inputs[i].now <= inputs[j].now)
  }

  lemma {:induction false} CallsInTime(s: Session, m: Meter, inputs: seq<Timed>, from: real, until: real)
    requires Spans(inputs, from, until)
    ensures During(Calls(s, m, inputs), from, until)
    decreases |inputs|
  {
    if inputs != [] && !s.stop {
      var next := Turn(s, inputs[0].input, inputs[0].now).session;
      CallsInTime(next, m, inputs[1..], inputs[0].now, until);
    }
  }

  /** Within an allowance over so many seconds. */
  predicate Spares(spent: nat, cap: real, rate: real, seconds: real) {
    spent as real <= cap + rate * seconds
  }

  /** A session whose budgets are as they should be at some time. */
  ghost predicate Fit(s: Session, now: real) {
    forall m: Meter :: FitBy(s, m, now)
  }

  predicate FitBy(s: Session, m: Meter, now: real) {
    && Within(Gauge(s, m), Cap(m)) && Gauge(s, m).rate == Rate(m) && Gauge(s, m).max == Steady(m)
    && Gauge(s, m).lastRefill <= now
  }

  lemma GaugeStays(s: Session, m: Meter, inputs: seq<Timed>, opening: real, until: real, life: Story)
    requires FitBy(s, m, opening) && opening <= until && Spans(inputs, opening, until) && life == Life(s, inputs)
    ensures FitBy(life.session, m, until)
  {
    GaugeIsAfter(s, m, inputs);
    CallsInTime(s, m, inputs, opening, until);
    AfterWithin(Gauge(s, m), Calls(s, m, inputs), Cap(m));
  }

  lemma LifeStaysFit(s: Session, inputs: seq<Timed>, opening: real, until: real, life: Story)
    requires Fit(s, opening) && opening <= until && Spans(inputs, opening, until) && life == Life(s, inputs)
    ensures Fit(life.session, until)
  {
    forall m: Meter ensures FitBy(life.session, m, until) {
      GaugeStays(s, m, inputs, opening, until, life);
    }
  }

  lemma SpentInWindow(s: Session, m: Meter, window: seq<Timed>, from: real, until: real)
    requires FitBy(s, m, from) && from <= until && Spans(window, from, until)
    ensures Spares(SpentOver(s, m, window), Cap(m), Rate(m), until - from)
  {
    CallsInTime(s, m, window, from, until);
    SparingWindow(Gauge(s, m), Calls(s, m, window), Rate(m), Cap(m), from, until);
  }

  lemma SparingWindow(b: Bucket, calls: seq<Call>, rate: real, cap: real, from: real, until: real)
    requires Within(b, cap) && b.rate == rate && b.lastRefill <= from <= until && During(calls, from, until)
    ensures Spares(Spent(b, calls), cap, rate, until - from)
  {
    WindowAtRate(b, calls, rate, cap, from, until);
  }

  /** One story after another. */
  function Then(early: Story, late: Story): Story {
    Story(late.session, early.ops + late.ops, early.sent + late.sent)
  }

  lemma Regrouped(step: Story, middle: Story, late: Story, early: Story, tail: Story, whole: Story)
    requires early == Then(step, middle) && tail == Then(middle, late) && whole == Then(step, tail)
    ensures whole == Then(early, late)
  {
  }

  lemma LifeSteps(s: Session, inputs: seq<Timed>, step: Story, p: Progress)
    requires inputs != [] && !s.stop && p == Turn(s, inputs[0].input, inputs[0].now)
    requires step == Story(p.session, p.ops, p.sent)
    ensures Life(s, inputs) == Then(step, Life(step.session, inputs[1..]))
  {
    LifeGoesOn(s, inputs);
  }

  /** A life in two parts. */
  lemma {:induction false} LifeInParts(s: Session, first: seq<Timed>, rest: seq<Timed>, early: Story)
    requires early == Life(s, first)
    ensures Life(s, first + rest) == Then(early, Life(early.session, rest))
    decreases |first|, 1
  {
    if first == [] {
      assert first + rest == rest;
      NothingThen(Life(s, rest), s);
    } else if s.stop {
      NothingThen(Story(s, [], []), s);
    } else {
      var p := Turn(s, first[0].input, first[0].now);
      LaterInParts(s, first, rest, p, early, first + rest);
    }
  }

  lemma LaterInParts(
      s: Session, first: seq<Timed>, rest: seq<Timed>, p: Progress, early: Story, whole: seq<Timed>)
    requires first != [] && !s.stop && p == Turn(s, first[0].input, first[0].now) && early == Life(s, first)
    requires whole == first + rest
    ensures Life(s, whole) == Then(early, Life(early.session, rest))
    decreases |first|, 0
  {
    var step, middle := Story(p.session, p.ops, p.sent), Life(p.session, first[1..]);
    LifeInParts(p.session, first[1..], rest, middle);
    assert whole[0] == first[0] && whole[1..] == first[1..] + rest;
    LifeSteps(s, first, step, p);
    LifeSteps(s, whole, step, p);
    Regrouped(step, middle, Life(middle.session, rest), early, Life(p.session, whole[1..]), Life(s, whole));
  }

  lemma NothingThen(late: Story, s: Session)
    ensures Then(Story(s, [], []), late) == late
  {
  }

  /** 60 frames and 30 more a second, 12288 bytes and 4096 more a second, 80 signals and 20 more a second. */
  predicate Limited(s: Session, window: seq<Timed>, seconds: real) {
    && Spares(|Opened(s, window)|, Cap(Payloads), Rate(Payloads), seconds)
    && Spares(Bytes(Opened(s, window)), Cap(Bandwidth), Rate(Bandwidth), seconds)
    && Spares(Passes(Life(s, window).ops), Cap(Relays), Rate(Relays), seconds)
  }

  /** The life up to `j`, cut in two at `i`. */
  lemma LifeCutAt(s: Session, inputs: seq<Timed>, i: nat, j: nat, before: Story)
    requires i < j <= |inputs| && before == Life(s, inputs[..i])
    ensures Life(s, inputs[..j]) == Then(before, Life(before.session, inputs[i..j]))
  {
    assert inputs[..j] == inputs[..i] + inputs[i..j];
    LifeInParts(s, inputs[..i], inputs[i..j], before);
  }

  lemma SpansInParts(inputs: seq<Timed>, opening: real, i: nat, j: nat, from: real, until: real)
    requires i < j <= |inputs| && Spans(inputs, opening, inputs[|inputs| - 1].now)
    requires from == inputs[i].now && until == inputs[j - 1].now
    ensures opening <= from <= until && Spans(inputs[..i], opening, from) && Spans(inputs[i..j], from, until)
  {
  }

  /**
   * What a session lets through over any T seconds of its life: at most 60 + 30 T frames of at most
   * 12288 + 4096 T bytes, and at most 80 + 20 T signals. `before` is its story up to there.
   */
  lemma SessionsAreLimited(
      ip: Ip, opening: real, s: Session, inputs: seq<Timed>, i: nat, j: nat, before: Story, from: real, until: real)
    requires i < j <= |inputs| && s == NewSession(ip, opening) && Spans(inputs, opening, inputs[|inputs| - 1].now)
    requires before == Life(s, inputs[..i]) && from == inputs[i].now && until == inputs[j - 1].now
    ensures Life(s, inputs[..j]) == Then(before, Life(before.session, inputs[i..j]))
    ensures Limited(before.session, inputs[i..j], until - from)
  {
    LifeCutAt(s, inputs, i, j, before);
    NewSessionIsFit(ip, opening, s);
    SpansInParts(inputs, opening, i, j, from, until);
    LifeStaysFit(s, inputs[..i], opening, from, before);
    WindowIsLimited(before.session, inputs[i..j], from, until);
  }

  lemma NewSessionIsFit(ip: Ip, opening: real, s: Session)
    requires s == NewSession(ip, opening)
    ensures Fit(s, opening)
  {
  }

  lemma WindowIsLimited(s: Session, window: seq<Timed>, from: real, until: real)
    requires Fit(s, from) && from <= until && Spans(window, from, until)
    ensures Limited(s, window, until - from)
  {
    SpentInWindow(s, Payloads, window, from, until);
    SpentInWindow(s, Bandwidth, window, from, until);
    SpentInWindow(s, Relays, window, from, until);
    SparingIsLimited(s, window, until - from);
  }

  lemma SparingIsLimited(s: Session, window: seq<Timed>, seconds: real)
    requires Spares(SpentOver(s, Payloads, window), Cap(Payloads), Rate(Payloads), seconds)
    requires Spares(SpentOver(s, Bandwidth, window), Cap(Bandwidth), Rate(Bandwidth), seconds)
    requires Spares(SpentOver(s, Relays, window), Cap(Relays), Rate(Relays), seconds)
    ensures Limited(s, window, seconds)
  {
    NothingUnpaid(s, window);
  }

  // Nothing refused without need.

  /** The frames that come in during a session's life. */
  function Frames(s: Session, inputs: seq<Timed>): seq<Timed>
    decreases |inputs|
  {
    if inputs == [] || s.stop then []
    else
      (if inputs[0].input.Received? then [inputs[0]] else [])
      + Frames(Turn(s, inputs[0].input, inputs[0].now).session, inputs[1..])
  }

  lemma {:induction false} NoneRefusedGoesOn(s: Session, m: Meter, inputs: seq<Timed>, next: Session)
    requires inputs != [] && !s.stop && next == Turn(s, inputs[0].input, inputs[0].now).session
    ensures NoneRefused(Gauge(s, m), Calls(s, m, inputs)) <==>
      && (Asked(s, m, inputs[0]).Some? ==> Allows(Gauge(s, m), inputs[0].now, Asked(s, m, inputs[0]).value))
      && NoneRefused(Gauge(next, m), Calls(next, m, inputs[1..]))
  {
    var asked, rest := Asked(s, m, inputs[0]), Calls(next, m, inputs[1..]);
    TurnCharges(s, m, inputs[0]);
    if asked.Some? {
      var all := [Call(inputs[0].now, asked.value)] + rest;
      assert Calls(s, m, inputs) == all && all[1..] == rest;
      NoneRefusedAfterFirst(Gauge(s, m), all, Gauge(next, m));
    } else {
      assert Calls(s, m, inputs) == rest;
    }
  }

  lemma {:induction false} NoneRefusedIsOpened(s: Session, inputs: seq<Timed>)
    requires NoneRefused(s.payloads, Calls(s, Payloads, inputs))
    requires NoneRefused(s.bandwidth, Calls(s, Bandwidth, inputs))
    ensures Opened(s, inputs) == Frames(s, inputs)
    decreases |inputs|
  {
    if inputs != [] && !s.stop {
      var next := Turn(s, inputs[0].input, inputs[0].now).session;
      NoneRefusedGoesOn(s, Payloads, inputs, next);
      NoneRefusedGoesOn(s, Bandwidth, inputs, next);
      NoneRefusedIsOpened(next, inputs[1..]);
    }
  }

  lemma {:induction false} NoneRefusedIsPassed(s: Session, inputs: seq<Timed>)
    requires NoneRefused(s.relays, Calls(s, Relays, inputs))
    ensures SpentOver(s, Relays, inputs) == |Calls(s, Relays, inputs)|
    decreases |inputs|
  {
    if inputs != [] && !s.stop {
      var next := Turn(s, inputs[0].input, inputs[0].now).session;
      NoneRefusedGoesOn(s, Relays, inputs, next);
      NoneRefusedIsPassed(next, inputs[1..]);
      SpentGoesOn(s, Relays, inputs);
    }
  }

  /** What a session is asked for keeps to the rate of one of its budgets. */
  ghost predicate Modestly(s: Session, m: Meter, inputs: seq<Timed>) {
    Modest(Calls(s, m, inputs), Steady(m), Rate(m))
  }

  /** The budgets of a new session are full. */
  lemma ModestlyIsUnrefused(ip: Ip, opening: real, s: Session, m: Meter, inputs: seq<Timed>, until: real)
    requires s == NewSession(ip, opening) && Spans(inputs, opening, until) && Modestly(s, m, inputs)
    ensures NoneRefused(Gauge(s, m), Calls(s, m, inputs))
  {
    CallsInTime(s, m, inputs, opening, until);
    ModestCallsPass(Gauge(s, m), Calls(s, m, inputs));
  }

  /**
   * Whoever keeps to the rates is heard. In the life of a session whose frames never come faster than 30 and 30 more a
   * second, nor their bytes faster than 4096 and 4096 more a second, every frame that comes in is looked at; and if its
   * signals do not come faster than 20 and 20 more a second, every one is passed on.
   */
  lemma ModestClientsAreHeard(ip: Ip, opening: real, s: Session, inputs: seq<Timed>, until: real)
    requires s == NewSession(ip, opening) && Spans(inputs, opening, until)
    ensures Modestly(s, Payloads, inputs) && Modestly(s, Bandwidth, inputs) ==> Opened(s, inputs) == Frames(s, inputs)
    ensures Modestly(s, Relays, inputs) ==> Passes(Life(s, inputs).ops) == |Calls(s, Relays, inputs)|
  {
    if Modestly(s, Payloads, inputs) && Modestly(s, Bandwidth, inputs) {
      ModestlyIsUnrefused(ip, opening, s, Payloads, inputs, until);
      ModestlyIsUnrefused(ip, opening, s, Bandwidth, inputs, until);
      NoneRefusedIsOpened(s, inputs);
    }
    if Modestly(s, Relays, inputs) {
      ModestlyIsUnrefused(ip, opening, s, Relays, inputs, until);
      NoneRefusedIsPassed(s, inputs);
      NothingUnpaid(s, inputs);
    }
  }
}
