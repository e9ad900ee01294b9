/** Ids, metadata and the messages that the NutBlaster exchanges with its clients. */
module Basics {

  datatype Option<+T> = None | Some(value: T)

  /** A random 64-bit id of a player or a lobby. */
  type BasicId = x: nat | x < 0x1_0000_0000_0000_0000

  const NULL: BasicId := 0

  /** Sizes of keys and values are counted in bytes of their UTF-8 form. */
  newtype Byte = x: int | 0 <= x < 0x100

  type Text = seq<Byte>
  type GameId = Text
  type Ip = nat
  type Metadata = map<Text, Text>

  const MAX_FIELDS := 16
  const MAX_ENTRY_SIZE := 128
  const MAX_PLAYERS := 16
  const FIELD_NAME_MAX := 255
  const FIELD_VALUE_MAX := 1023

  datatype LobbyId = LobbyId(gid: GameId, lid: BasicId)

  datatype Kick = Natural(code: string, msg: string) | Violation(code: string, msg: string)

  /** WebRTC signalling that the server relays without looking inside. */
  datatype Signal =
    | Candidate(candidate: Text, mid: Text)
    | Offer(sdp: Text)
    | Answer(sdp: Text)

  datatype LobbyListing = LobbyListing(lid: BasicId, players: nat, max: nat, metadata: Metadata)

  datatype ServerMessage =
    | Pong(players: set<BasicId>)
    | Connected(pid: BasicId, lid: BasicId, birth: nat)
    | Disconnected(reason: Kick)
    | SetListed(listed: bool)
    | SetCapacity(capacity: nat)
    | SetPlayerMeta(pid: BasicId, key: Text, value: Text)
    | ErasePlayerMeta(pid: BasicId, key: Text)
    | SetLobbyMeta(key: Text, value: Text)
    | EraseLobbyMeta(key: Text)
    | SetMaster(pid: BasicId)
    | Joined(pid: BasicId, metadata: Metadata, birth: nat)
    | Left(pid: BasicId, reason: Kick)
    | Relayed(from: BasicId, signal: Signal)
    | List(list: seq<LobbyListing>)

  function Lookup(m: Metadata, key: Text): Option<Text> {
    if key in m then Some(m[key]) else None
  }

  predicate CanAdd(m: Metadata, key: Text) {
    key in m || |m| < MAX_FIELDS
  }

  /** The entries small enough to be shown in a lobby listing. */
  function Truncated(m: Metadata): (r: Metadata)
    ensures r.Keys <= m.Keys && |r| <= |m|
  {
    var r := m - (set k | k in m && |k| + |m[k]| >= MAX_ENTRY_SIZE);
    assert r.Keys <= m.Keys;
    SubsetSize(r.Keys, m.Keys);
    r
  }

  // What deserialization lets through.

  predicate ValidKey(key: Text) {
    0 < |key| <= FIELD_NAME_MAX
  }

  predicate ValidValue(value: Text) {
    |value| <= FIELD_VALUE_MAX
  }

  predicate ValidMetadata(m: Metadata) {
    |m| <= MAX_FIELDS && forall k :: k in m ==> ValidKey(k) && ValidValue(m[k])
  }

  predicate ValidCapacity(capacity: nat) {
    2 <= capacity < MAX_PLAYERS
  }

  /** `order` lists every element of `s` exactly once: what iterating over a hash set or map yields. */
  ghost predicate Enumerates<T>(order: seq<T>, s: set<T>) {
    && (forall i :: 0 <= i < |order| ==> order[i] in s)
    && (forall x :: x in s ==> x in order)
    && (forall i, j :: 0 <= i < j < |order| ==> order[i] != order[j])
  }

  /** Visiting `x`, the next of what is left. */
  lemma OneMoreInOrder<T>(order: seq<T>, all: set<T>, rest: set<T>, x: T)
    requires Enumerates(order, all - rest) && x in rest && rest <= all
    ensures Enumerates(order + [x], all - (rest - {x}))
    ensures all - rest + {x} == all - (rest - {x})
  {
    var s := all - rest;
    forall y | y in s + {x} ensures y in order + [x] {
      if y != x {
        assert y in order;
      }
    }
  }

  lemma {:induction false} EnumerationSize<T>(order: seq<T>, s: set<T>)
    requires Enumerates(order, s)
    ensures |order| == |s|
  {
    if order == [] {
      assert s == {};
    } else {
      var last := order[|order| - 1];
      var init := order[..|order| - 1];
      forall x | x in s - {last} ensures x in init {
        assert x in order;
      }
      EnumerationSize(init, s - {last});
    }
  }

  lemma {:induction false} SubsetSize<T>(a: set<T>, b: set<T>)
    requires a <= b
    ensures |a| <= |b|
  {
    assert b == a + (b - a);
  }

  /** An injective image is as large as what it is the image of. */
  lemma {:induction false} InjectiveImageSize<A, B>(xs: set<A>, f: map<A, B>, ys: set<B>)
    requires forall x :: x in xs ==> x in f && f[x] in ys
    requires forall x, y :: x in xs && y in xs && f[x] == f[y] ==> x == y
    ensures |xs| <= |ys|
    decreases xs
  {
    if xs != {} {
      var x :| x in xs;
      InjectiveImageSize(xs - {x}, f, ys - {f[x]});
    }
  }

  lemma Associative<T>(a: seq<T>, b: seq<T>, c: seq<T>)
    ensures a + b + c == a + (b + c)
  {
  }
}
