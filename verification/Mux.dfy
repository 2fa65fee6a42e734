/** The session multiplexer: channel identifiers, the broker of a session, and the queue of a channel. */
module Mux {
  import opened Blocks

  type ChannelId = nat

  // ---- channel identifiers ----

  function FirstId(initiator: bool): nat {
    if initiator then 1 else 2
  }

  /** The k-th identifier that a side makes, in 64-bit arithmetic. */
  function IdOf(initiator: bool, k: nat): (id: ChannelId)
    ensures id < TWO_64
  {
    (FirstId(initiator) + 2 * k) % TWO_64
  }

  /** Identifiers coincide exactly for the same side a whole turn of the counter apart. */
  lemma SameIdIff(initiator: bool, k: nat, initiator': bool, k': nat)
    ensures IdOf(initiator, k) == IdOf(initiator', k') <==> initiator == initiator' && k % TWO_63 == k' % TWO_63
  {
    IdParts(initiator, k);
    IdParts(initiator', k');
  }

  /** An identifier split into parity and counter. */
  lemma IdParts(initiator: bool, k: nat)
    ensures initiator ==> IdOf(initiator, k) == 2 * (k % TWO_63) + 1
    ensures !initiator ==> IdOf(initiator, k) == if k % TWO_63 == TWO_63 - 1 then 0 else 2 * (k % TWO_63) + 2
  {
    var q, r := k / TWO_63, k % TWO_63;
    if initiator {
      Remainder(q, 2 * r + 1);
    } else if r == TWO_63 - 1 {
      Remainder(q + 1, 0);
    } else {
      Remainder(q, 2 * r + 2);
    }
  }

  lemma Remainder(q: nat, r: nat)
    requires r < TWO_64
    ensures (q * TWO_64 + r) % TWO_64 == r
  {
  }

  /** Zero is made only by the side that accepted the connection, at the end of a turn. */
  lemma ZeroIdIff(initiator: bool, k: nat)
    ensures IdOf(initiator, k) == 0 <==> !initiator && k % TWO_63 == TWO_63 - 1
  {
    IdParts(initiator, k);
  }

  class ChannelFactory {
    var nextId: ChannelId

    constructor (initiator: bool)
      ensures nextId == IdOf(initiator, 0)
    {
      nextId := 1;
      if !initiator {
        nextId := 2;
      }
    }

    /** After k calls the next one makes the k-th identifier. */
    method CreateChannelHandle(ghost initiator: bool, ghost k: nat) returns (id: ChannelId)
      requires nextId == IdOf(initiator, k)
      modifies this
      ensures id == IdOf(initiator, k) && nextId == IdOf(initiator, k + 1)
    {
      id := nextId;
      NextId(initiator, k);
      nextId := (nextId + 2) % TWO_64;
    }
  }

  lemma NextId(initiator: bool, k: nat)
    ensures IdOf(initiator, k + 1) == (IdOf(initiator, k) + 2) % TWO_64
  {
    var x := FirstId(initiator) + 2 * k;
    assert x == (x / TWO_64) * TWO_64 + x % TWO_64;
    if x % TWO_64 + 2 < TWO_64 {
      Remainder(x / TWO_64, x % TWO_64 + 2);
    } else {
      Remainder(x / TWO_64 + 1, x % TWO_64 + 2 - TWO_64);
    }
  }

  // ---- the broker ----

  /** The content of a message, once its type and payload were understood by the channel's protocol. */
  datatype Content = Content(kind: int, body: seq<byte>)

  /** What a protocol makes of a message type and a payload, if it can. */
  type Decoder = (int, seq<byte>) -> Option<Content>

  /** The queue of a channel and what `Read` has taken from it. */
  datatype Inbox = Inbox(queue: seq<Content>, delivered: seq<Content>)

  /** `opens` is the task that waits for the peer to open a channel, `accepts` the tasks that wait for an accept. */
  datatype Broker = Broker(channels: map<ChannelId, Inbox>, opens: Option<nat>, accepts: map<ChannelId, nat>)

  const NEW_BROKER := Broker(map[], None, map[])

  /** `None` is a panic in these functions. */
  function WaitOpen(b: Broker, task: nat): Option<Broker> {
    if b.opens.Some? then None else Some(b.(opens := Some(task)))
  }

  /** The task that is handed the opened channel, if any. */
  function InOpen(b: Broker, id: ChannelId): (Broker, Option<nat>) {
    if id in b.channels || b.opens.None? then (b, None) else (b.(opens := None), b.opens)
  }

  function WaitAccept(b: Broker, id: ChannelId, task: nat): Option<Broker> {
    if id in b.accepts || id in b.channels then None else Some(b.(accepts := b.accepts[id := task]))
  }

  /** The task whose wait is over, if any. */
  function InAccept(b: Broker, id: ChannelId): (Broker, Option<nat>) {
    if id in b.channels || id !in b.accepts then (b, None) else (b.(accepts := b.accepts - {id}), Some(b.accepts[id]))
  }

  function Register(b: Broker, id: ChannelId): Option<Broker> {
    if id in b.channels then None else Some(b.(channels := b.channels[id := Inbox([], [])]))
  }

  function InData(decode: Decoder, b: Broker, id: ChannelId, kind: int, payload: seq<byte>): Broker {
    if id !in b.channels || decode(kind, payload).None? then b
    else
      var q := b.channels[id];
      b.(channels := b.channels[id := q.(queue := q.queue + [decode(kind, payload).value])])
  }

  /** `Read` on a channel that has something queued. */
  function Take(b: Broker, id: ChannelId): Broker
    requires id in b.channels && b.channels[id].queue != []
  {
    var q := b.channels[id];
    b.(channels := b.channels[id := Inbox(q.queue[1..], q.delivered + [q.queue[0]])])
  }

  /** A wait that is answered hands over the task that waits, and leaves the broker as it was before the wait. */
  lemma OpenAnswersWait(b: Broker, task: nat, id: ChannelId)
    requires WaitOpen(b, task).Some? && id !in b.channels
    ensures InOpen(WaitOpen(b, task).value, id) == (b, Some(task))
  {
  }

  lemma AcceptAnswersWait(b: Broker, task: nat, id: ChannelId)
    requires WaitAccept(b, id, task).Some?
    ensures InAccept(WaitAccept(b, id, task).value, id) == (b, Some(task))
  {
    assert b.accepts[id := task] - {id} == b.accepts;
  }

  // ---- what is on the wire ----

  datatype Wire = Open(id: ChannelId) | Accept(id: ChannelId) | Close(id: ChannelId)
                | Data(id: ChannelId, kind: int, payload: seq<byte>)

  /** What a message adds to a channel. */
  function Adds(decode: Decoder, m: Wire, id: ChannelId): seq<Content> {
    if m.Data? && m.id == id && decode(m.kind, m.payload).Some? then [decode(m.kind, m.payload).value] else []
  }

  /** The decodable messages for a channel, in order. */
  function Decoded(decode: Decoder, ms: seq<Wire>, id: ChannelId): seq<Content> {
    if ms == [] then [] else Decoded(decode, ms[..|ms| - 1], id) + Adds(decode, ms[|ms| - 1], id)
  }

  lemma DecodedSnoc(decode: Decoder, log: seq<Wire>, from: nat, m: Wire, id: ChannelId)
    requires from <= |log|
    ensures Decoded(decode, (log + [m])[from..], id) == Decoded(decode, log[from..], id) + Adds(decode, m, id)
  {
    var all := (log + [m])[from..];
    assert all == log[from..] + [m] && all[..|all| - 1] == log[from..];
  }

  /** What was read from a channel and what is queued for it are, in order, the decodable messages for it that came
      since it was registered, and nothing else. `since` is how much of the log was there when a channel was
      registered. */
  ghost predicate ChannelFifo(decode: Decoder, channels: map<ChannelId, Inbox>, since: map<ChannelId, nat>,
                              log: seq<Wire>, id: ChannelId)
    requires id in channels
  {
    && id in since && since[id] <= |log|
    && channels[id].delivered + channels[id].queue == Decoded(decode, log[since[id]..], id)
  }

  ghost predicate Fifo(decode: Decoder, channels: map<ChannelId, Inbox>, since: map<ChannelId, nat>, log: seq<Wire>) {
    forall id :: id in channels ==> ChannelFifo(decode, channels, since, log, id)
  }

  /** A message adds to each channel what is meant for it. */
  lemma MessageFifo(decode: Decoder, channels: map<ChannelId, Inbox>, since: map<ChannelId, nat>, log: seq<Wire>,
                    m: Wire, to: map<ChannelId, Inbox>)
    requires Fifo(decode, channels, since, log) && to.Keys == channels.Keys
    requires forall id :: id in channels ==>
               to[id].delivered == channels[id].delivered && to[id].queue == channels[id].queue + Adds(decode, m, id)
    ensures Fifo(decode, to, since, log + [m])
  {
    forall id | id in to
      ensures ChannelFifo(decode, to, since, log + [m], id)
    {
      assert ChannelFifo(decode, channels, since, log, id);
      OneMore(decode, channels[id], log, since[id], m, id);
    }
  }

  lemma OneMore(decode: Decoder, q: Inbox, log: seq<Wire>, from: nat, m: Wire, id: ChannelId)
    requires from <= |log| && q.delivered + q.queue == Decoded(decode, log[from..], id)
    ensures q.delivered + (q.queue + Adds(decode, m, id)) == Decoded(decode, (log + [m])[from..], id)
  {
    DecodedSnoc(decode, log, from, m, id);
    assert q.delivered + (q.queue + Adds(decode, m, id)) == q.delivered + q.queue + Adds(decode, m, id);
  }

  lemma DataFifo(decode: Decoder, b: Broker, since: map<ChannelId, nat>, log: seq<Wire>, id: ChannelId, kind: int,
                 payload: seq<byte>)
    requires Fifo(decode, b.channels, since, log)
    ensures Fifo(decode, InData(decode, b, id, kind, payload).channels, since, log + [Data(id, kind, payload)])
  {
    MessageFifo(decode, b.channels, since, log, Data(id, kind, payload), InData(decode, b, id, kind, payload).channels);
  }

  lemma RegisterFifo(decode: Decoder, b: Broker, since: map<ChannelId, nat>, log: seq<Wire>, id: ChannelId)
    requires Fifo(decode, b.channels, since, log) && id !in b.channels
    ensures Fifo(decode, Register(b, id).value.channels, since[id := |log|], log)
  {
    forall x | x in b.channels
      ensures ChannelFifo(decode, b.channels, since, log, x)
    {
    }
    assert log[|log|..] == [];
  }

  /** Reading moves the head of the queue and keeps the order. */
  lemma TakeFifo(decode: Decoder, b: Broker, since: map<ChannelId, nat>, log: seq<Wire>, id: ChannelId)
    requires Fifo(decode, b.channels, since, log) && id in b.channels && b.channels[id].queue != []
    ensures Fifo(decode, Take(b, id).channels, since, log)
  {
    HeadMoves(b.channels[id].queue, b.channels[id].delivered);
    forall x | x in b.channels
      ensures ChannelFifo(decode, Take(b, id).channels, since, log, x)
    {
      assert ChannelFifo(decode, b.channels, since, log, x);
    }
  }

  lemma HeadMoves(queue: seq<Content>, delivered: seq<Content>)
    requires queue != []
    ensures delivered + [queue[0]] + queue[1..] == delivered + queue
  {
  }

  /** The loop of the broker, one method for each case. `log` is what was received so far, and `since` how much of
      it when a channel was registered. */
  class BrokerLoop {
    const decode: Decoder
    var channels: map<ChannelId, Inbox>
    var opens: Option<nat>
    var accepts: map<ChannelId, nat>
    ghost var log: seq<Wire>
    ghost var since: map<ChannelId, nat>

    ghost function Now(): Broker
      reads this
    {
      Broker(channels, opens, accepts)
    }

    ghost predicate Valid()
      reads this
    {
      Fifo(decode, channels, since, log)
    }

    constructor (decode: Decoder)
      ensures Valid() && this.decode == decode && Now() == NEW_BROKER && log == []
    {
      this.decode := decode;
      channels, opens, accepts, log, since := map[], None, map[], [], map[];
    }

    method OnWaitOpen(task: nat) returns (panic: bool)
      requires Valid()
      modifies this`opens
      ensures Valid()
      ensures panic <==> WaitOpen(old(Now()), task).None?
      ensures Now() == if panic then old(Now()) else WaitOpen(old(Now()), task).value
    {
      if opens.Some? {
        return true;
      }
      opens := Some(task);
      panic := false;
    }

    method OnOpen(id: ChannelId) returns (task: Option<nat>)
      requires Valid()
      modifies this`opens, this`log
      ensures Valid() && log == old(log) + [Open(id)]
      ensures (Now(), task) == InOpen(old(Now()), id)
    {
      MessageFifo(decode, channels, since, log, Open(id), channels);
      log := log + [Open(id)];
      if id in channels || opens.None? {
        return None;
      }
      task := opens;
      opens := None;
    }

    method OnWaitAccept(id: ChannelId, task: nat) returns (panic: bool)
      requires Valid()
      modifies this`accepts
      ensures Valid()
      ensures panic <==> WaitAccept(old(Now()), id, task).None?
      ensures Now() == if panic then old(Now()) else WaitAccept(old(Now()), id, task).value
    {
      if id in accepts || id in channels {
        return true;
      }
      accepts := accepts[id := task];
      panic := false;
    }

    method OnAccept(id: ChannelId) returns (task: Option<nat>)
      requires Valid()
      modifies this`accepts, this`log
      ensures Valid() && log == old(log) + [Accept(id)]
      ensures (Now(), task) == InAccept(old(Now()), id)
    {
      MessageFifo(decode, channels, since, log, Accept(id), channels);
      log := log + [Accept(id)];
      if id in channels || id !in accepts {
        return None;
      }
      task := Some(accepts[id]);
      accepts := accepts - {id};
    }

    /** From here on the channel gets every decodable message for it. */
    method OnRegister(id: ChannelId) returns (panic: bool)
      requires Valid()
      modifies this`channels, this`since
      ensures Valid()
      ensures panic <==> id in old(channels)
      ensures !panic ==> id in channels && since[id] == |log|
      ensures Now() == if panic then old(Now()) else Register(old(Now()), id).value
    {
      if id in channels {
        return true;
      }
      RegisterFifo(decode, Now(), since, log, id);
      channels := channels[id := Inbox([], [])];
      since := since[id := |log|];
      panic := false;
    }

    /** A message that is not for a channel with its identifier, or cannot be decoded, is dropped. */
    method OnData(id: ChannelId, kind: int, payload: seq<byte>)
      requires Valid()
      modifies this`channels, this`log
      ensures Valid() && log == old(log) + [Data(id, kind, payload)]
      ensures Now() == InData(decode, old(Now()), id, kind, payload)
    {
      DataFifo(decode, Now(), since, log, id, kind, payload);
      log := log + [Data(id, kind, payload)];
      var m := decode(kind, payload);
      if id !in channels || m.None? {
        return;
      }
      channels := channels[id := channels[id].(queue := channels[id].queue + [m.value])];
    }

    /** `Read` on a channel with something queued: the next of these messages. */
    method OnRead(id: ChannelId) returns (m: Content)
      requires Valid() && id in channels && channels[id].queue != []
      modifies this`channels
      ensures Valid() && Now() == Take(old(Now()), id) && m == old(channels[id].queue[0])
      ensures id in channels && channels[id].delivered == old(channels[id].delivered) + [m]
    {
      TakeFifo(decode, Now(), since, log, id);
      var q := channels[id];
      m := q.queue[0];
      channels := channels[id := Inbox(q.queue[1..], q.delivered + [m])];
    }
  }

  /** What the loop of a channel meets: a message that comes in, or a reader that is ready. */
  datatype Event = Incoming(message: Content) | ReaderReady

  function AllIncoming(es: seq<Event>): seq<Content> {
    if es == [] then []
    else AllIncoming(es[..|es| - 1]) + if es[|es| - 1].Incoming? then [es[|es| - 1].message] else []
  }

  /** The queue between the broker and the readers of one channel. */
  class ChannelQueue {
    var queue: seq<Content>

    constructor ()
      ensures queue == []
    {
      queue := [];
    }

    /** The loop of the channel. A reader that is ready while nothing is queued waits. What the readers get, and what is
        left in the queue, are the messages that came in, in order. */
    method Handler(events: seq<Event>) returns (out: seq<Content>)
      modifies this
      ensures out + queue == old(queue) + AllIncoming(events)
      ensures out <= old(queue) + AllIncoming(events)
    {
      out := [];
      assert events[..0] == [];
      for i := 0 to |events|
        invariant out + queue == old(queue) + AllIncoming(events[..i])
      {
        assert events[..i + 1][..i] == events[..i];
        match events[i] {
          case Incoming(m) =>
            assert out + (queue + [m]) == out + queue + [m];
            queue := queue + [m];
          case ReaderReady =>
            if queue != [] {
              assert out + [queue[0]] + queue[1..] == out + queue;
              out, queue := out + [queue[0]], queue[1..];
            }
        }
      }
      assert events[..|events|] == events;
      assert out == (out + queue)[..|out|];
    }
  }
}
