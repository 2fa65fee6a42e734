/** The tables of the relay server: session identifiers, the sessions with their keys, and the connected clients. */
module RelayTables {
  import opened Blocks

  type Identity = seq<byte>
  type Key = seq<byte>

  /** The size of an Ed25519 public key, which is the identity of a connected client. */
  const IDENTITY_SIZE := 32

  // ---- session identifiers ----

  const DIGITS := "0123456789abcdef"

  function Hex(b: seq<byte>): string {
    if b == [] then "" else [DIGITS[b[0] as int / 16], DIGITS[b[0] as int % 16]] + Hex(b[1..])
  }

  function Identifier(a: Identity, b: Identity): string {
    Hex(a) + Hex(b)
  }

  lemma {:induction false} HexSize(b: seq<byte>)
    ensures |Hex(b)| == 2 * |b|
  {
    if b != [] {
      HexSize(b[1..]);
    }
  }

  lemma {:induction false} HexConcat(a: seq<byte>, b: seq<byte>)
    ensures Hex(a + b) == Hex(a) + Hex(b)
  {
    if a == [] {
      assert a + b == b;
    } else {
      assert (a + b)[1..] == a[1..] + b;
      HexConcat(a[1..], b);
    }
  }

  lemma DigitInjective(x: nat, y: nat)
    requires x < 16 && y < 16 && DIGITS[x] == DIGITS[y]
    ensures x == y
  {
  }

  lemma HexDigits(x: byte, y: byte)
    requires DIGITS[x as int / 16] == DIGITS[y as int / 16] && DIGITS[x as int % 16] == DIGITS[y as int % 16]
    ensures x == y
  {
    DigitInjective(x as int / 16, y as int / 16);
    DigitInjective(x as int % 16, y as int % 16);
  }

  lemma {:induction false} HexInjective(a: seq<byte>, b: seq<byte>)
    requires Hex(a) == Hex(b)
    ensures a == b
  {
    HexSize(a);
    HexSize(b);
    if a != [] {
      assert Hex(a)[0] == Hex(b)[0] && Hex(a)[1] == Hex(b)[1];
      HexDigits(a[0], b[0]);
      assert Hex(a)[2..] == Hex(a[1..]) && Hex(b)[2..] == Hex(b[1..]);
      HexInjective(a[1..], b[1..]);
      assert a == [a[0]] + a[1..] && b == [b[0]] + b[1..];
    }
  }

  /** Two pairs share an identifier exactly if they run together to the same bytes. */
  lemma IdentifierIff(a: Identity, b: Identity, a': Identity, b': Identity)
    ensures Identifier(a, b) == Identifier(a', b') <==> a + b == a' + b'
  {
    HexConcat(a, b);
    HexConcat(a', b');
    if Identifier(a, b) == Identifier(a', b') {
      HexInjective(a + b, a' + b');
    }
  }

  /** Once the second identities are equally long the identifier is injective, whatever the first ones are. */
  lemma IdentifierInjective(a: Identity, b: Identity, a': Identity, b': Identity)
    requires |b| == |b'|
    ensures Identifier(a, b) == Identifier(a', b') <==> a == a' && b == b'
  {
    IdentifierIff(a, b, a', b');
    if a + b == a' + b' {
      assert a == (a + b)[..|a|] && b == (a + b)[|a|..];
      assert a' == (a' + b')[..|a|] && b' == (a' + b')[|a|..];
    }
  }

  /** The order of the two identities is part of the identifier. */
  lemma IdentifierOrdered(a: Identity, b: Identity)
    requires |a| == |b|
    ensures Identifier(a, b) == Identifier(b, a) <==> a == b
  {
    IdentifierInjective(a, b, b, a);
  }

  /** Without a fixed length different pairs share an identifier. */
  lemma IdentifierShared()
    ensures Identifier([1], [2, 3]) == Identifier([1, 2], [3])
  {
    IdentifierIff([1], [2, 3], [1, 2], [3]);
  }

  // ---- sessions and keys ----

  /** `First` is the side of the initiator's key, `Second` the side of the target's. */
  datatype Side = First | Second

  function Other(side: Side): Side {
    if side == First then Second else First
  }

  /** `handler` stands for the two connection channels and the accept channel that a session shares with its handler. */
  datatype SessionHandle = SessionHandle(
    initiator: Identity, target: Identity, key1: Key, key2: Key, accepted: bool, handler: nat)
  {
    function KeyOf(side: Side): Key {
      if side == First then key1 else key2
    }
  }

  datatype KeyHandle = KeyHandle(id: string, handler: nat, side: Side)

  datatype Registry = Registry(sessions: map<string, SessionHandle>, keys: map<Key, KeyHandle>)

  datatype RelayError = NoError | SessionExists | UnknownSession | SessionAlreadyAccepted

  function OpenSession(reg: Registry, initiator: Identity, target: Identity, key1: Key, key2: Key, handler: nat)
    : (Registry, RelayError)
  {
    var id := Identifier(initiator, target);
    if id in reg.sessions then (reg, SessionExists)
    else
      (Registry(reg.sessions[id := SessionHandle(initiator, target, key1, key2, false, handler)],
                reg.keys[key1 := KeyHandle(id, handler, First)][key2 := KeyHandle(id, handler, Second)]),
       NoError)
  }

  function AcceptSession(reg: Registry, initiator: Identity, target: Identity): (Registry, RelayError) {
    var id := Identifier(initiator, target);
    if id !in reg.sessions then (reg, UnknownSession)
    else if reg.sessions[id].accepted then (reg, SessionAlreadyAccepted)
    else (reg.(sessions := reg.sessions[id := reg.sessions[id].(accepted := true)]), NoError)
  }

  /** `None` is the panic for a session that does not exist. */
  function DeleteSession(reg: Registry, id: string): Option<Registry> {
    if id !in reg.sessions then None
    else
      var s := reg.sessions[id];
      Some(Registry(reg.sessions - {id}, reg.keys - {s.key1, s.key2}))
  }

  ghost predicate Named(id: string, s: SessionHandle) {
    |s.initiator| == |s.target| == IDENTITY_SIZE && id == Identifier(s.initiator, s.target)
  }

  /** A session is found by both of its keys. */
  ghost predicate SessionOk(reg: Registry, id: string)
    requires id in reg.sessions
  {
    var s := reg.sessions[id];
    && s.key1 in reg.keys && reg.keys[s.key1] == KeyHandle(id, s.handler, First)
    && s.key2 in reg.keys && reg.keys[s.key2] == KeyHandle(id, s.handler, Second)
  }

  /** A key belongs to a session that has it. */
  ghost predicate KeyOk(reg: Registry, k: Key)
    requires k in reg.keys
  {
    var e := reg.keys[k];
    e.id in reg.sessions && reg.sessions[e.id].handler == e.handler && reg.sessions[e.id].KeyOf(e.side) == k
  }

  ghost predicate AllNamed(reg: Registry) {
    forall id :: id in reg.sessions ==> Named(id, reg.sessions[id])
  }

  ghost predicate Linked(reg: Registry) {
    && (forall id :: id in reg.sessions ==> SessionOk(reg, id))
    && (forall k :: k in reg.keys ==> KeyOk(reg, k))
  }

  ghost predicate Consistent(reg: Registry) {
    AllNamed(reg) && Linked(reg)
  }

  /** The key table is the disjoint union of the two keys of each session. */
  ghost predicate KeyUnion(reg: Registry) {
    && (forall k :: k in reg.keys <==> exists id, side :: id in reg.sessions && reg.sessions[id].KeyOf(side) == k)
    && (forall id, side, id', side' ::
          id in reg.sessions && id' in reg.sessions && reg.sessions[id].KeyOf(side) == reg.sessions[id'].KeyOf(side')
          ==> id == id' && side == side')
  }

  lemma KeysAreDisjointUnion(reg: Registry)
    requires Linked(reg)
    ensures KeyUnion(reg)
  {
    forall id, side | id in reg.sessions
      ensures var k := reg.sessions[id].KeyOf(side); k in reg.keys && reg.keys[k].id == id && reg.keys[k].side == side
    {
      assert SessionOk(reg, id);
    }
    forall k | k in reg.keys
      ensures exists id, side :: id in reg.sessions && reg.sessions[id].KeyOf(side) == k
    {
      assert KeyOk(reg, k);
      assert reg.sessions[reg.keys[k].id].KeyOf(reg.keys[k].side) == k;
    }
  }

  /** The sessions and keys after a session was added under a free identifier with free keys. */
  lemma AddLinks(reg: Registry, id: string, s: SessionHandle)
    requires Linked(reg) && id !in reg.sessions && s.key1 != s.key2 && s.key1 !in reg.keys && s.key2 !in reg.keys
    ensures Linked(Registry(reg.sessions[id := s],
                            reg.keys[s.key1 := KeyHandle(id, s.handler, First)][s.key2 := KeyHandle(id, s.handler,
                                                                                                    Second)]))
  {
  }

  lemma OpenKeeps(reg: Registry, initiator: Identity, target: Identity, key1: Key, key2: Key, handler: nat)
    requires Consistent(reg) && |initiator| == |target| == IDENTITY_SIZE
    requires key1 != key2 && key1 !in reg.keys && key2 !in reg.keys
    ensures Consistent(OpenSession(reg, initiator, target, key1, key2, handler).0)
  {
    var id := Identifier(initiator, target);
    if id !in reg.sessions {
      AddLinks(reg, id, SessionHandle(initiator, target, key1, key2, false, handler));
    }
  }

  lemma MarkLinks(reg: Registry, id: string)
    requires Linked(reg) && id in reg.sessions
    ensures Linked(reg.(sessions := reg.sessions[id := reg.sessions[id].(accepted := true)]))
  {
  }

  lemma AcceptKeeps(reg: Registry, initiator: Identity, target: Identity)
    requires Consistent(reg)
    ensures Consistent(AcceptSession(reg, initiator, target).0)
  {
    var id := Identifier(initiator, target);
    if id in reg.sessions {
      MarkLinks(reg, id);
    }
  }

  /** An accept succeeds exactly for an open session of that initiator whose target is the accepting client. */
  lemma AcceptIff(reg: Registry, initiator: Identity, target: Identity)
    requires AllNamed(reg) && |target| == IDENTITY_SIZE
    ensures AcceptSession(reg, initiator, target).1 == NoError <==>
              exists id :: id in reg.sessions && !reg.sessions[id].accepted
                           && Between(reg.sessions[id], initiator, target)
  {
    forall id | id in reg.sessions
      ensures Between(reg.sessions[id], initiator, target) <==> id == Identifier(initiator, target)
    {
      NamedIff(id, reg.sessions[id], initiator, target);
    }
  }

  predicate Between(s: SessionHandle, initiator: Identity, target: Identity) {
    s.initiator == initiator && s.target == target
  }

  lemma NamedIff(id: string, s: SessionHandle, initiator: Identity, target: Identity)
    requires Named(id, s) && |target| == IDENTITY_SIZE
    ensures Between(s, initiator, target) <==> id == Identifier(initiator, target)
  {
    IdentifierInjective(initiator, target, s.initiator, s.target);
  }

  /** Deleting a session removes it with exactly its two keys. */
  lemma DeleteKeeps(reg: Registry, id: string)
    requires Consistent(reg) && id in reg.sessions
    ensures Consistent(DeleteSession(reg, id).value)
    ensures forall k :: k in DeleteSession(reg, id).value.keys <==> k in reg.keys && reg.keys[k].id != id
  {
    DeleteRemoves(reg, id);
    var to := DeleteSession(reg, id).value;
    forall i | i in to.sessions
      ensures SessionOk(to, i)
    {
      assert SessionOk(reg, i);
    }
    forall k | k in to.keys
      ensures KeyOk(to, k)
    {
      assert KeyOk(reg, k);
    }
  }

  lemma DeleteRemoves(reg: Registry, id: string)
    requires Linked(reg) && id in reg.sessions
    ensures forall k :: k in DeleteSession(reg, id).value.keys <==> k in reg.keys && reg.keys[k].id != id
  {
  }

  lemma OneByOne(keys: map<Key, KeyHandle>, a: Key, b: Key)
    ensures keys - {a} - {b} == keys - {a, b}
  {
  }

  /** The state of the session loop. */
  class SessionTable {
    var sessions: map<string, SessionHandle>
    var keys: map<Key, KeyHandle>

    constructor ()
      ensures Now() == Registry(map[], map[]) && Consistent(Now())
    {
      sessions, keys := map[], map[];
    }

    ghost function Now(): Registry
      reads this
    {
      Registry(sessions, keys)
    }

    /** `newSession`, with the keys drawn and the handler started for it. */
    method NewSession(initiator: Identity, target: Identity, key1: Key, key2: Key, handler: nat) returns (e: RelayError)
      requires Consistent(Now()) && |initiator| == |target| == IDENTITY_SIZE
      requires key1 != key2 && key1 !in keys && key2 !in keys
      modifies this
      ensures (Now(), e) == OpenSession(old(Now()), initiator, target, key1, key2, handler)
      ensures Consistent(Now())
    {
      OpenKeeps(Now(), initiator, target, key1, key2, handler);
      var id := Identifier(initiator, target);
      if id in sessions {
        return SessionExists;
      }
      keys := keys[key1 := KeyHandle(id, handler, First)];
      keys := keys[key2 := KeyHandle(id, handler, Second)];
      sessions := sessions[id := SessionHandle(initiator, target, key1, key2, false, handler)];
      e := NoError;
    }

    method Accept(initiator: Identity, target: Identity) returns (e: RelayError)
      requires Consistent(Now())
      modifies this
      ensures (Now(), e) == AcceptSession(old(Now()), initiator, target)
      ensures Consistent(Now())
    {
      AcceptKeeps(Now(), initiator, target);
      var id := Identifier(initiator, target);
      if id !in sessions {
        return UnknownSession;
      }
      if sessions[id].accepted {
        return SessionAlreadyAccepted;
      }
      sessions := sessions[id := sessions[id].(accepted := true)];
      assert Now() == AcceptSession(old(Now()), initiator, target).0;
      e := NoError;
    }

    method Delete(id: string) returns (panic: bool)
      requires Consistent(Now())
      modifies this
      ensures panic <==> DeleteSession(old(Now()), id).None?
      ensures Now() == if panic then old(Now()) else DeleteSession(old(Now()), id).value
      ensures Consistent(Now())
    {
      if id !in sessions {
        return true;
      }
      ghost var to := DeleteSession(Now(), id).value;
      DeleteKeeps(Now(), id);
      var handle := sessions[id];
      keys := keys - {handle.key1};
      keys := keys - {handle.key2};
      sessions := sessions - {id};
      OneByOne(old(keys), handle.key1, handle.key2);
      assert Now() == to;
      panic := false;
    }

    /** The channel of the session side whose key was presented. */
    method Channel(key: Key) returns (channel: Option<KeyHandle>)
      requires Consistent(Now())
      ensures channel.None? ==> forall id, side :: id in sessions ==> sessions[id].KeyOf(side) != key
      ensures channel.Some? ==>
                channel.value.id in sessions && sessions[channel.value.id].KeyOf(channel.value.side) == key
    {
      if key in keys {
        assert KeyOk(Now(), key);
        return Some(keys[key]);
      }
      forall id | id in sessions
        ensures key != sessions[id].key1 && key != sessions[id].key2
      {
        assert SessionOk(Now(), id);
      }
      return None;
    }
  }
}
