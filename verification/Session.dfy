/** Two sessions on the ends of one ordered connection, as a state machine. A step is one interaction of a task, a
    reader or the connection with a broker. */
module Session {
  import opened Blocks
  import opened Mux
  import Runs

  /** A call of `OpenChannel`: the identifier was made, the broker knows of it, the open message was written, the
      channel was registered. */
  datatype OpenerPhase = Made | Waiting | Sent | Opened

  datatype Opener = Opener(id: ChannelId, phase: OpenerPhase, accepted: bool)

  /** A call of `AcceptChannel`: waiting, given a channel, having written the accept message, registered. */
  datatype Acceptor = Idle | Given(id: ChannelId) | Answered(id: ChannelId) | Serving(id: ChannelId)

  datatype Fault = NoFault | IdPanic | DoubleWait

  /** `wrote` is everything this end has written to the connection, `log` what it has processed of what the other end
      wrote, `since` the length of the log when a channel was registered. */
  datatype Peer = Peer(initiator: bool, openers: seq<Opener>, acceptors: seq<Acceptor>, broker: Broker,
                       since: map<ChannelId, nat>, log: seq<Wire>, wrote: seq<Wire>, fault: Fault)

  function NewPeer(initiator: bool): Peer {
    Peer(initiator, [], [], NEW_BROKER, map[], [], [], NoFault)
  }

  datatype Pair = Pair(a: Peer, b: Peer)
  {
    function Me(first: bool): Peer {
      if first then a else b
    }

    function With(first: bool, p: Peer): Pair {
      if first then Pair(p, b) else Pair(a, p)
    }
  }

  const START := Pair(NewPeer(true), NewPeer(false))

  /** What an end does on its own. */
  datatype Act =
    | Create
    | Await(i: nat)
    | SendOpen(i: nat)
    | Enroll(i: nat)
    | Listen
    | SendAccept(j: nat)
    | Join(j: nat)
    | Write(id: ChannelId, kind: int, payload: seq<byte>)
    | Read(id: ChannelId)
    | Process

  datatype Action = Action(first: bool, act: Act)

  /** The identifier after the ones that were made does not wrap around. */
  predicate NoWrapYet(p: Peer) {
    FirstId(p.initiator) + 2 * |p.openers| < TWO_64
  }

  predicate Enabled(p: Peer, from: seq<Wire>, a: Act) {
    p.fault == NoFault &&
    match a
    case Create => NoWrapYet(p)
    case Await(i) => i < |p.openers| && p.openers[i].phase == Made
    case SendOpen(i) => i < |p.openers| && p.openers[i].phase == Waiting
    case Enroll(i) => i < |p.openers| && p.openers[i].phase == Sent && p.openers[i].accepted
    case Listen => true
    case SendAccept(j) => j < |p.acceptors| && p.acceptors[j].Given?
    case Join(j) => j < |p.acceptors| && p.acceptors[j].Answered?
    case Write(id, _, _) => id in p.broker.channels
    case Read(id) => id in p.broker.channels && p.broker.channels[id].queue != []
    case Process => |p.log| < |from|
  }

  function Advance(p: Peer, i: nat, to: OpenerPhase): Peer
    requires i < |p.openers|
  {
    p.(openers := p.openers[i := p.openers[i].(phase := to)])
  }

  function Release(p: Peer, i: nat): Peer
    requires i < |p.openers|
  {
    p.(openers := p.openers[i := p.openers[i].(accepted := true)])
  }

  function Enlist(p: Peer, id: ChannelId): Peer {
    var b := Register(p.broker, id);
    if b.None? then p.(fault := IdPanic) else p.(broker := b.value, since := p.since[id := |p.log|])
  }

  /** The reading loop hands a message to the broker. */
  function Deliver(decode: Decoder, p: Peer, m: Wire): Peer {
    match m
    case Open(id) =>
      var (b, task) := InOpen(p.broker, id);
      if task.Some? && task.value < |p.acceptors|
      then p.(broker := b, acceptors := p.acceptors[task.value := Given(id)]) else p.(broker := b)
    case Accept(id) =>
      var (b, task) := InAccept(p.broker, id);
      if task.Some? && task.value < |p.openers| then Release(p.(broker := b), task.value) else p.(broker := b)
    case Close(_) => p
    case Data(id, kind, payload) => p.(broker := InData(decode, p.broker, id, kind, payload))
  }

  function Apply(decode: Decoder, p: Peer, from: seq<Wire>, a: Act): Peer
    requires Enabled(p, from, a)
  {
    match a
    case Create => p.(openers := p.openers + [Opener(IdOf(p.initiator, |p.openers|), Made, false)])
    case Await(i) =>
      var b := WaitAccept(p.broker, p.openers[i].id, i);
      if b.None? then p.(fault := IdPanic) else Advance(p.(broker := b.value), i, Waiting)
    case SendOpen(i) => Advance(p.(wrote := p.wrote + [Open(p.openers[i].id)]), i, Sent)
    case Enroll(i) => Advance(Enlist(p, p.openers[i].id), i, Opened)
    case Listen =>
      var b := WaitOpen(p.broker, |p.acceptors|);
      if b.None? then p.(fault := DoubleWait) else p.(broker := b.value, acceptors := p.acceptors + [Idle])
    case SendAccept(j) =>
      p.(wrote := p.wrote + [Accept(p.acceptors[j].id)], acceptors := p.acceptors[j := Answered(p.acceptors[j].id)])
    case Join(j) =>
      var q := Enlist(p, p.acceptors[j].id);
      q.(acceptors := q.acceptors[j := Serving(p.acceptors[j].id)])
    case Write(id, kind, payload) => p.(wrote := p.wrote + [Data(id, kind, payload)])
    case Read(id) => p.(broker := Take(p.broker, id))
    case Process =>
      var q := Deliver(decode, p, from[|p.log|]);
      q.(log := p.log + [from[|p.log|]])
  }

  ghost predicate Step(decode: Decoder, y: Pair, a: Action, z: Pair) {
    var me, from := y.Me(a.first), y.Me(!a.first).wrote;
    Enabled(me, from, a.act) && z == y.With(a.first, Apply(decode, me, from, a.act))
  }

  ghost predicate Reaches(decode: Decoder, acts: seq<Action>, y: Pair) {
    Runs.Reaches(START, (x, a, z) => Step(decode, x, a, z), acts, y)
  }
}
