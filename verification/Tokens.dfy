/** The lazily refilled token bucket behind every rate limit of the server. */
module Tokens {
  import opened Basics

  /** Times are seconds of a monotone clock; `rate` is in tokens per second. */
  datatype Bucket = Bucket(identifier: string, tokens: real, lastRefill: real, rate: real, max: real)

  function Fresh(identifier: string, rate: real, max: real, burst: real, now: real): Bucket {
    Bucket(identifier, burst, now, rate, max)
  }

  function FreshMetadata(identifier: string, now: real): Bucket {
    Fresh(identifier, 4096.0, 8192.0, 8192.0, now)
  }

  function Min(a: real, b: real): real {
    if a <= b then a else b
  }

  /** What the bucket holds at `now`: above `max` the initial burst is spent before refilling starts. */
  function Level(b: Bucket, now: real): real {
    if b.tokens <= b.max then Min(b.tokens + (now - b.lastRefill) * b.rate, b.max) else b.tokens
  }

  function Refilled(b: Bucket, now: real): Bucket {
    b.(tokens := Level(b, now), lastRefill := now)
  }

  predicate Allows(b: Bucket, now: real, count: nat) {
    count as real <= Level(b, now)
  }

  /** The bucket after a call, which refreshes it whether or not the call is let through. */
  function Taken(b: Bucket, now: real, count: nat): Bucket {
    var r := Refilled(b, now);
    if Allows(b, now, count) then r.(tokens := r.tokens - count as real) else r
  }

  function Violated(b: Bucket): Kick {
    Violation("rate_limited." + b.identifier, "Bandwidth patrol! (" + b.identifier + ")")
  }

  /** Never in debt, and never above the larger of the steady maximum and the initial burst. */
  predicate Within(b: Bucket, cap: real) {
    0.0 <= b.tokens <= cap && 0.0 <= b.max <= cap && 0.0 <= b.rate
  }

  lemma TakenWithin(b: Bucket, now: real, count: nat, cap: real)
    requires Within(b, cap) && b.lastRefill <= now
    ensures Within(Taken(b, now, count), cap) && 0.0 <= Level(b, now) <= cap
  {
    assert 0.0 <= (now - b.lastRefill) * b.rate;
  }

  // Traces of calls.

  datatype Call = Call(at: real, count: nat)

  predicate Chronological(b: Bucket, calls: seq<Call>) {
    && (forall i :: 0 <= i < |calls| ==> b.lastRefill <= calls[i].at)
    && (forall i, j :: 0 <= i < j < |calls| ==> calls[i].at <= calls[j].at)
  }

  function After(b: Bucket, calls: seq<Call>): Bucket
    decreases |calls|
  {
    if calls == [] then b else After(Taken(b, calls[0].at, calls[0].count), calls[1..])
  }

  function Outcomes(b: Bucket, calls: seq<Call>): (r: seq<bool>)
    ensures |r| == |calls|
    decreases |calls|
  {
    if calls == [] then []
    else [Allows(b, calls[0].at, calls[0].count)] + Outcomes(Taken(b, calls[0].at, calls[0].count), calls[1..])
  }

  /** The tokens handed out to the calls that were let through. */
  function Spent(b: Bucket, calls: seq<Call>): nat
    decreases |calls|
  {
    if calls == [] then 0
    else
      (if Allows(b, calls[0].at, calls[0].count) then calls[0].count else 0)
      + Spent(Taken(b, calls[0].at, calls[0].count), calls[1..])
  }

  lemma {:induction false} AfterWithin(b: Bucket, calls: seq<Call>, cap: real)
    requires Within(b, cap) && Chronological(b, calls)
    ensures Within(After(b, calls), cap)
    ensures After(b, calls).rate == b.rate && After(b, calls).max == b.max
    ensures After(b, calls).lastRefill == if calls == [] then b.lastRefill else calls[|calls| - 1].at
    decreases |calls|
  {
    if calls != [] {
      TakenWithin(b, calls[0].at, calls[0].count, cap);
      AfterWithin(Taken(b, calls[0].at, calls[0].count), calls[1..], cap);
    }
  }

  lemma Accrual(rate: real, a: real, b: real, c: real)
    ensures rate * (c - a) == rate * (b - a) + rate * (c - b)
  {
  }

  lemma LevelWhenTaken(b: Bucket, now: real, count: nat)
    ensures Level(Taken(b, now, count), now)
      == Level(b, now) - (if Allows(b, now, count) then count as real else 0.0)
  {
    var r := Taken(b, now, count);
    assert (now - r.lastRefill) * r.rate == 0.0;
  }

  lemma NonNegativeProduct(a: real, b: real)
    requires 0.0 <= a && 0.0 <= b
    ensures 0.0 <= a * b
  {
  }

  lemma LevelGrowth(b: Bucket, rate: real, from: real, until: real)
    requires 0.0 <= b.rate == rate && b.lastRefill <= from <= until
    ensures Level(b, until) <= Level(b, from) + rate * (until - from)
  {
    NonNegativeProduct(rate, until - from);
    assert (until - b.lastRefill) * b.rate == (from - b.lastRefill) * b.rate + rate * (until - from);
  }

  /** Whatever is spent is paid for by the level at the start and the tokens that accrue meanwhile. */
  lemma {:induction false} SpentIsPaidFor(
      b: Bucket, calls: seq<Call>, rate: real, from: real, until: real, cap: real)
    requires Within(b, cap) && Chronological(b, calls) && b.rate == rate
    requires b.lastRefill <= from <= until
    requires forall i :: 0 <= i < |calls| ==> from <= calls[i].at <= until
    ensures Spent(b, calls) as real + Level(After(b, calls), until) <= Level(b, from) + rate * (until - from)
    decreases |calls|
  {
    if calls == [] {
      LevelGrowth(b, rate, from, until);
    } else {
      var at, count := calls[0].at, calls[0].count;
      var b' := Taken(b, at, count);
      TakenWithin(b, at, count, cap);
      SpentIsPaidFor(b', calls[1..], rate, at, until, cap);
      LevelGrowth(b, rate, from, at);
      LevelWhenTaken(b, at, count);
      Accrual(rate, from, at, until);
      PaidForStep(
        if Allows(b, at, count) then count as real else 0.0, Spent(b', calls[1..]) as real,
        Level(b, from), Level(b, at), Level(b', at), Level(After(b, calls), until),
        rate * (at - from), rate * (until - at), rate * (until - from));
    }
  }

  lemma PaidForStep(
      first: real, rest: real, start: real, before: real, after: real, end: real, gain: real, later: real, total: real)
    requires rest + end <= after + later
    requires before <= start + gain
    requires after == before - first
    requires total == gain + later
    ensures first + rest + end <= start + total
  {
  }

  /**
   * The bound on any window of a trace: the calls from `i` up to `j` spend at most the level found at the
   * start of the window plus what accrues during it, and that level never exceeds `cap`.
   */
  lemma {:induction false} WindowBound(
      b: Bucket, calls: seq<Call>, i: nat, j: nat, rate: real, from: real, until: real, cap: real)
    requires Within(b, cap) && Chronological(b, calls) && b.rate == rate
    requires i <= j <= |calls|
    requires After(b, calls[..i]).lastRefill <= from <= until
    requires forall k :: i <= k < j ==> from <= calls[k].at <= until
    ensures Spent(After(b, calls[..i]), calls[i..j]) as real
      <= Level(After(b, calls[..i]), from) + rate * (until - from)
    ensures Level(After(b, calls[..i]), from) <= cap
  {
    AfterWithin(b, calls[..i], cap);
    WindowFrom(After(b, calls[..i]), calls[i..j], rate, from, until, cap);
  }

  lemma WindowFrom(start: Bucket, window: seq<Call>, rate: real, from: real, until: real, cap: real)
    requires Within(start, cap) && Chronological(start, window) && start.rate == rate
    requires start.lastRefill <= from <= until
    requires forall k :: 0 <= k < |window| ==> from <= window[k].at <= until
    ensures Spent(start, window) as real <= Level(start, from) + rate * (until - from)
    ensures Level(start, from) <= cap
  {
    SpentIsPaidFor(start, window, rate, from, until, cap);
    AfterWithin(start, window, cap);
    TakenWithin(After(start, window), until, 0, cap);
    TakenWithin(start, from, 0, cap);
  }

  ghost predicate During(calls: seq<Call>, from: real, until: real) {
    && (forall k :: 0 <= k < |calls| ==> from <= calls[k].at <= until)
    && (forall k, n :: 0 <= k < n < |calls| ==> calls[k].at <= calls[n].at)
  }

  lemma WindowAtRate(b: Bucket, calls: seq<Call>, rate: real, cap: real, from: real, until: real)
    requires Within(b, cap) && b.rate == rate && b.lastRefill <= from <= until && During(calls, from, until)
    ensures Spent(b, calls) as real <= cap + rate * (until - from)
  {
    assert Chronological(b, calls);
    WindowFrom(b, calls, rate, from, until, cap);
  }

  // What is let through, and not only what is not.

  /** Above `max` a bucket holds what is left of its burst, which time does not change. */
  lemma BurstAllows(b: Bucket, now: real, count: nat)
    requires b.tokens > b.max
    ensures Allows(b, now, count) <==> count as real <= b.tokens
    ensures Taken(b, now, count).tokens == if count as real <= b.tokens then b.tokens - count as real else b.tokens
  {
  }

  /** From `max` down it refills at its rate: a call passes exactly if neither that nor `max` is exceeded. */
  lemma SteadyAllows(b: Bucket, now: real, count: nat)
    requires b.tokens <= b.max
    ensures Allows(b, now, count) <==>
      count as real <= b.max && count as real <= b.tokens + b.rate * (now - b.lastRefill)
  {
    Commutes(now - b.lastRefill, b.rate);
  }

  lemma Commutes(a: real, b: real)
    ensures a * b == b * a
  {
  }

  function Sum(calls: seq<Call>): nat {
    if calls == [] then 0 else calls[0].count + Sum(calls[1..])
  }

  /** What the calls from `i` to `j` ask for together. */
  function Window(calls: seq<Call>, i: nat, j: nat): nat
    requires i <= j < |calls|
  {
    Sum(calls[i..j + 1])
  }

  /** So much can be paid from what was there at `from` and what accrues until `until`. */
  predicate Fits(asked: nat, tokens: real, rate: real, from: real, until: real) {
    asked as real <= tokens + rate * (until - from)
  }

  /** No stretch of the trace asks for more than `max` and what accrues during it. */
  ghost predicate Modest(calls: seq<Call>, max: real, rate: real) {
    forall i, j :: 0 <= i <= j < |calls| ==> Fits(Window(calls, i, j), max, rate, calls[i].at, calls[j].at)
  }

  /** Nor does the trace, up to any call, ask for more than `tokens` at `since` and what accrues from there. */
  ghost predicate Covered(calls: seq<Call>, tokens: real, rate: real, since: real) {
    forall j :: 0 <= j < |calls| ==> Fits(Window(calls, 0, j), tokens, rate, since, calls[j].at)
  }

  predicate NoneRefused(b: Bucket, calls: seq<Call>) {
    forall i :: 0 <= i < |calls| ==> Outcomes(b, calls)[i]
  }

  lemma NoneRefusedAfterFirst(b: Bucket, calls: seq<Call>, b': Bucket)
    requires calls != [] && b' == Taken(b, calls[0].at, calls[0].count)
    ensures NoneRefused(b, calls) <==> Allows(b, calls[0].at, calls[0].count) && NoneRefused(b', calls[1..])
  {
    var first, rest := Allows(b, calls[0].at, calls[0].count), Outcomes(b', calls[1..]);
    assert Outcomes(b, calls) == [first] + rest;
    AllAfterFirst(first, rest, Outcomes(b, calls));
  }

  lemma AllAfterFirst(first: bool, rest: seq<bool>, all: seq<bool>)
    requires all == [first] + rest
    ensures (forall i :: 0 <= i < |all| ==> all[i]) <==> first && forall i :: 0 <= i < |rest| ==> rest[i]
  {
    assert all[0] == first && forall i :: 0 <= i < |rest| ==> rest[i] == all[i + 1];
  }

  lemma LaterWindow(calls: seq<Call>, i: nat, j: nat, rest: seq<Call>)
    requires i <= j < |rest| && calls != [] && rest == calls[1..]
    ensures Window(calls, i + 1, j + 1) == Window(rest, i, j)
  {
    var later, same := calls[i + 1..j + 2], rest[i..j + 1];
    assert |later| == |same| && forall k :: 0 <= k < |later| ==> later[k] == calls[i + 1 + k] == rest[i + k] == same[k];
    assert later == same;
  }

  lemma LongerWindow(calls: seq<Call>, j: nat, rest: seq<Call>)
    requires j < |rest| && calls != [] && rest == calls[1..]
    ensures Window(calls, 0, j + 1) == calls[0].count + Window(rest, 0, j)
  {
    var stretch := calls[0..j + 2];
    assert stretch[0] == calls[0];
    assert stretch[1..] == rest[0..j + 1];
    assert Sum(stretch) == calls[0].count + Sum(stretch[1..]);
  }

  lemma FirstWindow(calls: seq<Call>)
    requires calls != []
    ensures Window(calls, 0, 0) == calls[0].count
  {
    var stretch := calls[0..1];
    assert stretch == [calls[0]] && stretch[1..] == [];
    assert Sum(stretch) == calls[0].count + Sum([]);
  }

  /** Taking `count` at `at` out of what there is by then. */
  lemma FitsAfter(count: nat, asked: nat, tokens: real, level: real, rate: real, since: real, at: real, until: real)
    requires level == tokens + rate * (at - since)
    ensures Fits(count + asked, tokens, rate, since, until) <==>
      Fits(asked, level - count as real, rate, at, until)
  {
    Accrual(rate, since, at, until);
  }

  lemma FitsLevel(asked: nat, tokens: real, level: real, rate: real, since: real, at: real)
    requires level == tokens + rate * (at - since)
    ensures Fits(asked, tokens, rate, since, at) <==> asked as real <= level
  {
  }

  lemma FitsEarlier(asked: nat, less: real, more: real, rate: real, since: real, from: real, until: real)
    requires less <= more && 0.0 <= rate && since <= from && Fits(asked, less, rate, from, until)
    ensures Fits(asked, more, rate, since, until)
  {
    Accrual(rate, since, from, until);
    NonNegativeProduct(rate, from - since);
  }

  /** A trace is covered exactly if its first call is, and the rest by what that leaves. */
  lemma CoveredAfterFirst(calls: seq<Call>, rest: seq<Call>, tokens: real, since: real, rate: real, level: real)
    requires calls != [] && rest == calls[1..] && level == tokens + rate * (calls[0].at - since)
    ensures Covered(calls, tokens, rate, since) <==>
      calls[0].count as real <= level && Covered(rest, level - calls[0].count as real, rate, calls[0].at)
  {
    var at, count := calls[0].at, calls[0].count;
    FirstWindow(calls);
    FitsLevel(count, tokens, level, rate, since, at);
    forall j: nat | j < |rest|
      ensures Fits(Window(calls, 0, j + 1), tokens, rate, since, calls[j + 1].at) <==>
        Fits(Window(rest, 0, j), level - count as real, rate, at, rest[j].at)
    {
      LongerWindow(calls, j, rest);
      FitsAfter(count, Window(rest, 0, j), tokens, level, rate, since, at, rest[j].at);
    }
    AllCovered(calls, rest, tokens, since, rate, level - count as real, at);
  }

  lemma AllCovered(
      calls: seq<Call>, rest: seq<Call>, tokens: real, since: real, rate: real, left: real, at: real)
    requires calls != [] && rest == calls[1..]
    requires forall j: nat :: j < |rest| ==>
      (Fits(Window(calls, 0, j + 1), tokens, rate, since, calls[j + 1].at) <==>
       Fits(Window(rest, 0, j), left, rate, at, rest[j].at))
    ensures Covered(calls, tokens, rate, since) <==>
      Fits(Window(calls, 0, 0), tokens, rate, since, calls[0].at) && Covered(rest, left, rate, at)
  {
    if Fits(Window(calls, 0, 0), tokens, rate, since, calls[0].at) && Covered(rest, left, rate, at) {
      forall j | 0 <= j < |calls| ensures Fits(Window(calls, 0, j), tokens, rate, since, calls[j].at) {
        if j > 0 {
          var before := j - 1;
          assert Fits(Window(rest, 0, before), left, rate, at, rest[before].at);
        }
      }
    }
    if Covered(calls, tokens, rate, since) {
      var first := 0;
      assert Fits(Window(calls, 0, first), tokens, rate, since, calls[first].at);
      forall j | 0 <= j < |rest| ensures Fits(Window(rest, 0, j), left, rate, at, rest[j].at) {
        var after := j + 1;
        assert Fits(Window(calls, 0, after), tokens, rate, since, calls[after].at);
      }
    }
  }

  lemma {:induction false} ModestAfterFirst(calls: seq<Call>, rest: seq<Call>, max: real, rate: real)
    requires calls != [] && rest == calls[1..]
    ensures Modest(calls, max, rate) <==>
      && calls[0].count as real <= max && Covered(rest, max - calls[0].count as real, rate, calls[0].at)
      && Modest(rest, max, rate)
  {
    var at := calls[0].at;
    assert rate * (at - at) == 0.0;
    CoveredAfterFirst(calls, rest, max, at, rate, max);
    forall i: nat, j: nat | i <= j < |rest|
      ensures Fits(Window(calls, i + 1, j + 1), max, rate, calls[i + 1].at, calls[j + 1].at) <==>
        Fits(Window(rest, i, j), max, rate, rest[i].at, rest[j].at)
    {
      LaterWindow(calls, i, j, rest);
    }
    AllModest(calls, rest, max, rate);
  }

  lemma AllModest(calls: seq<Call>, rest: seq<Call>, max: real, rate: real)
    requires calls != [] && rest == calls[1..]
    requires forall i: nat, j: nat :: i <= j < |rest| ==>
      (Fits(Window(calls, i + 1, j + 1), max, rate, calls[i + 1].at, calls[j + 1].at) <==>
       Fits(Window(rest, i, j), max, rate, rest[i].at, rest[j].at))
    ensures Modest(calls, max, rate) <==> Covered(calls, max, rate, calls[0].at) && Modest(rest, max, rate)
  {
    if Covered(calls, max, rate, calls[0].at) && Modest(rest, max, rate) {
      forall i, j | 0 <= i <= j < |calls| ensures Fits(Window(calls, i, j), max, rate, calls[i].at, calls[j].at) {
        if i > 0 {
          var i', j' := i - 1, j - 1;
          assert Fits(Window(rest, i', j'), max, rate, rest[i'].at, rest[j'].at);
        }
      }
    }
    if Modest(calls, max, rate) {
      forall i, j | 0 <= i <= j < |rest| ensures Fits(Window(rest, i, j), max, rate, rest[i].at, rest[j].at) {
        var i', j' := i + 1, j + 1;
        assert Fits(Window(calls, i', j'), max, rate, calls[i'].at, calls[j'].at);
      }
    }
  }

  lemma CoveredByMore(calls: seq<Call>, less: real, more: real, since: real, rate: real)
    requires less <= more && Covered(calls, less, rate, since)
    ensures Covered(calls, more, rate, since)
  {
    forall j | 0 <= j < |calls| ensures Fits(Window(calls, 0, j), more, rate, since, calls[j].at) {
      assert Fits(Window(calls, 0, j), less, rate, since, calls[j].at);
    }
  }

  /** What is covered by the lesser of two amounts is covered by each. */
  lemma CoveredByBoth(calls: seq<Call>, a: real, b: real, since: real, rate: real)
    ensures Covered(calls, Min(a, b), rate, since) <==>
      Covered(calls, a, rate, since) && Covered(calls, b, rate, since)
  {
    if Covered(calls, Min(a, b), rate, since) {
      CoveredByMore(calls, Min(a, b), a, since, rate);
      CoveredByMore(calls, Min(a, b), b, since, rate);
    }
  }

  /** A trace that keeps to the rate: no stretch asks for more than `max`, nor its beginning for more than the start. */
  ghost predicate KeepsTo(calls: seq<Call>, b: Bucket) {
    Modest(calls, b.max, b.rate) && Covered(calls, b.tokens, b.rate, b.lastRefill)
  }

  /**
   * What the bucket is for. From `max` or less, none of the calls of a trace is refused if and only if the trace keeps
   * to the rate.
   */
  lemma {:induction false} PassesExactly(b: Bucket, calls: seq<Call>)
    requires b.tokens <= b.max && 0.0 <= b.rate && Chronological(b, calls)
    ensures NoneRefused(b, calls) <==> KeepsTo(calls, b)
    decreases |calls|
  {
    if calls != [] {
      var b' := Taken(b, calls[0].at, calls[0].count);
      NoneRefusedAfterFirst(b, calls, b');
      if Allows(b, calls[0].at, calls[0].count) {
        PassesExactly(b', calls[1..]);
      }
      KeepsToAfterFirst(b, calls, calls[1..], b');
    }
  }

  lemma KeepsToAfterFirst(b: Bucket, calls: seq<Call>, rest: seq<Call>, b': Bucket)
    requires b.tokens <= b.max && calls != [] && rest == calls[1..]
    requires b' == Taken(b, calls[0].at, calls[0].count)
    ensures KeepsTo(calls, b) <==> Allows(b, calls[0].at, calls[0].count) && KeepsTo(rest, b')
  {
    var at, count := calls[0].at, calls[0].count;
    var grown := b.tokens + b.rate * (at - b.lastRefill);
    SteadyAllows(b, at, count);
    SteadyTaken(b, at, count, grown, b');
    KeepingOn(calls, rest, b, count, at, grown, grown - count as real, b.max - count as real);
  }

  /** What keeping to the rate means for the first call and for the rest: `byStart` and `byMax` are what those leave. */
  lemma KeepingOn(
      calls: seq<Call>, rest: seq<Call>, b: Bucket, count: nat, at: real, grown: real, byStart: real, byMax: real)
    requires calls != [] && rest == calls[1..] && calls[0] == Call(at, count)
    requires grown == b.tokens + b.rate * (at - b.lastRefill)
    requires byStart == grown - count as real && byMax == b.max - count as real
    ensures Modest(calls, b.max, b.rate) <==>
      count as real <= b.max && Covered(rest, byMax, b.rate, at) && Modest(rest, b.max, b.rate)
    ensures Covered(calls, b.tokens, b.rate, b.lastRefill) <==>
      count as real <= grown && Covered(rest, byStart, b.rate, at)
    ensures Covered(rest, Min(byStart, byMax), b.rate, at) <==>
      Covered(rest, byStart, b.rate, at) && Covered(rest, byMax, b.rate, at)
  {
    ModestAfterFirst(calls, rest, b.max, b.rate);
    CoveredAfterFirst(calls, rest, b.tokens, b.lastRefill, b.rate, grown);
    CoveredByBoth(rest, byStart, byMax, at, b.rate);
  }

  lemma SteadyTaken(b: Bucket, now: real, count: nat, grown: real, b': Bucket)
    requires b.tokens <= b.max && grown == b.tokens + b.rate * (now - b.lastRefill)
    requires b' == Taken(b, now, count)
    ensures b'.max == b.max && b'.rate == b.rate && b'.lastRefill == now
    ensures Allows(b, now, count) ==> b'.tokens == Min(grown - count as real, b.max - count as real)
  {
    Commutes(now - b.lastRefill, b.rate);
    assert Refilled(b, now).tokens == Min(grown, b.max);
  }

  /** From `max` or more, burst included, no call of a trace that keeps to the rate is refused. */
  lemma {:induction false} ModestCallsPass(b: Bucket, calls: seq<Call>)
    requires b.max <= b.tokens && 0.0 <= b.rate && Chronological(b, calls) && Modest(calls, b.max, b.rate)
    ensures NoneRefused(b, calls)
    decreases |calls|
  {
    if b.tokens <= b.max {
      ModestIsCovered(b, calls);
      PassesExactly(b, calls);
    } else if calls != [] {
      var b' := Taken(b, calls[0].at, calls[0].count);
      ModestAfterFirst(calls, calls[1..], b.max, b.rate);
      NoneRefusedAfterFirst(b, calls, b');
      if b'.tokens < b'.max {
        CoveredByMore(calls[1..], b.max - calls[0].count as real, b'.tokens, calls[0].at, b.rate);
        PassesExactly(b', calls[1..]);
      } else {
        ModestCallsPass(b', calls[1..]);
      }
    }
  }

  lemma {:induction false} NoneRefusedWithOneMore(b: Bucket, calls: seq<Call>, c: Call, longer: seq<Call>)
    requires longer == calls + [c]
    ensures NoneRefused(b, longer) <==> NoneRefused(b, calls) && Allows(After(b, calls), c.at, c.count)
    decreases |calls|
  {
    if calls == [] {
      NoneRefusedAfterFirst(b, longer, Taken(b, c.at, c.count));
      assert longer[1..] == [];
    } else {
      var b' := Taken(b, calls[0].at, calls[0].count);
      assert longer[0] == calls[0] && longer[1..] == calls[1..] + [c];
      NoneRefusedWithOneMore(b', calls[1..], c, longer[1..]);
      NoneRefusedAfterFirst(b, calls, b');
      NoneRefusedAfterFirst(b, longer, b');
    }
  }

  /** After calls that were let through, one more is refused exactly if with it the trace does not keep to the rate. */
  lemma RefusedExactlyWhenOver(b: Bucket, calls: seq<Call>, c: Call)
    requires b.tokens <= b.max && 0.0 <= b.rate && Chronological(b, calls + [c]) && NoneRefused(b, calls)
    ensures Allows(After(b, calls), c.at, c.count) <==> KeepsTo(calls + [c], b)
  {
    PassesExactly(b, calls + [c]);
    NoneRefusedWithOneMore(b, calls, c, calls + [c]);
  }

  lemma ModestIsCovered(b: Bucket, calls: seq<Call>)
    requires b.max <= b.tokens && 0.0 <= b.rate && Chronological(b, calls) && Modest(calls, b.max, b.rate)
    ensures Covered(calls, b.tokens, b.rate, b.lastRefill)
  {
    forall j | 0 <= j < |calls| ensures Fits(Window(calls, 0, j), b.tokens, b.rate, b.lastRefill, calls[j].at) {
      var first := 0;
      assert Fits(Window(calls, first, j), b.max, b.rate, calls[first].at, calls[j].at);
      FitsEarlier(Window(calls, 0, j), b.max, b.tokens, b.rate, b.lastRefill, calls[first].at, calls[j].at);
    }
  }

  // Refused calls are unobservable.

  function Select<T>(xs: seq<T>, keep: seq<bool>): seq<T>
    requires |keep| == |xs|
  {
    if xs == [] then [] else (if keep[0] then [xs[0]] else []) + Select(xs[1..], keep[1..])
  }

  /** Two buckets that no call from `now` on can tell apart. */
  ghost predicate Alike(b: Bucket, c: Bucket, now: real) {
    b.lastRefill <= now && c.lastRefill <= now && Refilled(b, now) == Refilled(c, now)
  }

  lemma RefillTwice(b: Bucket, now: real, later: real)
    requires 0.0 <= b.rate && b.lastRefill <= now <= later
    ensures Refilled(Refilled(b, now), later) == Refilled(b, later)
  {
    assert (later - b.lastRefill) * b.rate == (now - b.lastRefill) * b.rate + (later - now) * b.rate;
    assert 0.0 <= (later - now) * b.rate;
  }

  lemma AlikeLater(b: Bucket, c: Bucket, now: real, later: real)
    requires Alike(b, c, now) && now <= later && 0.0 <= b.rate
    ensures Alike(b, c, later)
  {
    RefillTwice(b, now, later);
    RefillTwice(c, now, later);
  }

  /**
   * Deleting any set of refused calls from a trace leaves the outcome of every other call unchanged, and no
   * later call can tell the two buckets apart. `keep` marks the calls that stay.
   */
  lemma {:induction false} RefusedCallsAreUnobservable(
      b: Bucket, c: Bucket, calls: seq<Call>, keep: seq<bool>, now: real)
    requires 0.0 <= b.rate && Alike(b, c, now)
    requires Chronological(b, calls) && |keep| == |calls|
    requires forall i :: 0 <= i < |calls| ==> now <= calls[i].at
    requires forall i :: 0 <= i < |calls| && !keep[i] ==> !Outcomes(b, calls)[i]
    ensures Outcomes(c, Select(calls, keep)) == Select(Outcomes(b, calls), keep)
    ensures forall later ::
      now <= later && (calls == [] || calls[|calls| - 1].at <= later)
      ==> Alike(After(b, calls), After(c, Select(calls, keep)), later)
    decreases |calls|
  {
    if calls == [] {
      forall later | now <= later ensures Alike(b, c, later) {
        AlikeLater(b, c, now, later);
      }
    } else {
      var at, count := calls[0].at, calls[0].count;
      AlikeLater(b, c, now, at);
      var b' := Taken(b, at, count);
      forall i | 0 <= i < |calls[1..]| && !keep[1..][i] ensures !Outcomes(b', calls[1..])[i] {
        assert !Outcomes(b, calls)[i + 1];
      }
      var rest := Select(calls[1..], keep[1..]);
      if keep[0] {
        var c' := Taken(c, at, count);
        assert b' == c';
        assert Select(calls, keep) == [calls[0]] + rest;
        assert Select(calls, keep)[1..] == rest;
        RefusedCallsAreUnobservable(b', c', calls[1..], keep[1..], at);
      } else {
        assert !Outcomes(b, calls)[0];
        assert b' == Refilled(b, at);
        RefillTwice(b, at, at);
        assert Alike(b', c, at);
        assert Select(calls, keep) == rest;
        RefusedCallsAreUnobservable(b', c, calls[1..], keep[1..], at);
      }
      assert Outcomes(b, calls)[1..] == Outcomes(b', calls[1..]);
    }
  }

  datatype Verdict = Passed | Refused(reason: Kick)

  /** The bucket as the server keeps it, updated in place. */
  class TokenBucket {
    const identifier: string
    const rate: real
    const max: real
    var tokens: real
    var lastRefill: real

    ghost function View(): Bucket
      reads this
    {
      Bucket(identifier, tokens, lastRefill, rate, max)
    }

    constructor (identifier: string, rate: real, max: real, burst: real, now: real)
      ensures View() == Fresh(identifier, rate, max, burst, now)
    {
      this.identifier, this.rate, this.max := identifier, rate, max;
      tokens, lastRefill := burst, now;
    }

    method TryTake(count: nat, now: real) returns (verdict: Verdict)
      modifies this
      ensures View() == Taken(old(View()), now, count)
      ensures verdict == if Allows(old(View()), now, count) then Passed else Refused(Violated(old(View())))
    {
      var dt := now - lastRefill;
      lastRefill := now;
      if tokens <= max {
        tokens := Min(tokens + dt * rate, max);
      }
      if tokens < count as real {
        return Refused(Violation("rate_limited." + identifier, "Bandwidth patrol! (" + identifier + ")"));
      }
      tokens := tokens - count as real;
      return Passed;
    }
  }
}
