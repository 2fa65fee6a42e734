/** A channel can be opened and used from every state in which the two ends have nothing left to process. */
module SessionProgress {
  import opened Blocks
  import opened Mux
  import opened Session
  import Safety = SessionSafety
  import Runs

  /** One more action at the end of a run. */
  lemma Go(decode: Decoder, acts: seq<Action>, x: Pair, first: bool, act: Act) returns (more: seq<Action>, z: Pair)
    requires Reaches(decode, acts, x) && Enabled(x.Me(first), x.Me(!first).wrote, act)
    ensures Reaches(decode, more, z) && acts <= more
    ensures z.Me(first) == Apply(decode, x.Me(first), x.Me(!first).wrote, act) && z.Me(!first) == x.Me(!first)
  {
    z := x.With(first, Apply(decode, x.Me(first), x.Me(!first).wrote, act));
    Runs.Snoc(START, (x, a, z) => Step(decode, x, a, z), acts, x, Action(first, act), z);
    more := acts + [Action(first, act)];
  }

  /** Both ends have processed everything, nobody waits for a channel, and the next identifier does not wrap. */
  ghost predicate Ready(y: Pair, first: bool) {
    var me, you := y.Me(first), y.Me(!first);
    && me.fault == NoFault && you.fault == NoFault && |me.log| == |you.wrote| && |you.log| == |me.wrote|
    && you.broker.opens.None? && NoWrapYet(me)
  }

  function NewId(p: Peer): ChannelId {
    IdOf(p.initiator, |p.openers|)
  }

  /** The identifier that is made next is not in use. */
  lemma NewIdIsFree(p: Peer)
    requires Safety.Local(p) && NoWrapYet(p)
    ensures NewId(p) !in p.broker.channels && NewId(p) !in p.broker.accepts
  {
    assert NewId(p) in p.broker.accepts ==> Safety.WaitOk(p, NewId(p), p.broker.accepts[NewId(p)]);
  }

  function Opening(p: Peer): Peer {
    p.(openers := p.openers + [Opener(NewId(p), Sent, false)], wrote := p.wrote + [Open(NewId(p))],
       broker := p.broker.(accepts := p.broker.accepts[NewId(p) := |p.openers|]))
  }

  function Listening(p: Peer): Peer {
    p.(acceptors := p.acceptors + [Idle], broker := p.broker.(opens := Some(|p.acceptors|)))
  }

  lemma FreeNow(decode: Decoder, acts: seq<Action>, y: Pair, first: bool)
    requires Reaches(decode, acts, y) && NoWrapYet(y.Me(first))
    ensures NewId(y.Me(first)) !in y.Me(first).broker.channels && NewId(y.Me(first)) !in y.Me(first).broker.accepts
  {
    Safety.EveryRun(decode, acts, y);
    NewIdIsFree(y.Me(first));
  }

  lemma Offer(decode: Decoder, acts: seq<Action>, y: Pair, first: bool) returns (more: seq<Action>, z: Pair)
    requires Reaches(decode, acts, y) && Ready(y, first)
    ensures Reaches(decode, more, z) && acts <= more
    ensures z.Me(first) == Opening(y.Me(first)) && z.Me(!first) == Listening(y.Me(!first))
  {
    FreeNow(decode, acts, y, first);
    var n := |y.Me(first).openers|;
    more, z := Go(decode, acts, y, !first, Listen);
    more, z := Go(decode, more, z, first, Create);
    more, z := Go(decode, more, z, first, Await(n));
    more, z := Go(decode, more, z, first, SendOpen(n));
  }

  function Answering(p: Peer, id: ChannelId): Peer {
    p.(acceptors := p.acceptors + [Answered(id)], log := p.log + [Open(id)], wrote := p.wrote + [Accept(id)])
  }

  lemma Answer(decode: Decoder, acts: seq<Action>, y: Pair, s: Pair, first: bool) returns (more: seq<Action>, z: Pair)
    requires Reaches(decode, acts, s) && Ready(y, first)
    requires s.Me(first) == Opening(y.Me(first)) && s.Me(!first) == Listening(y.Me(!first))
    ensures Reaches(decode, more, z) && acts <= more
    ensures z.Me(first) == s.Me(first) && z.Me(!first) == Answering(y.Me(!first), NewId(y.Me(first)))
    ensures NewId(y.Me(first)) !in z.Me(!first).broker.channels
  {
    var j := |y.Me(!first).acceptors|;
    Safety.NothingIgnored(decode, acts, s, !first);
    more, z := Go(decode, acts, s, !first, Process);
    more, z := Go(decode, more, z, !first, SendAccept(j));
  }

  /** The opener's end once the channel is registered. */
  function Opened(p: Peer): Peer {
    var id := NewId(p);
    p.(openers := p.openers + [Opener(id, OpenerPhase.Opened, true)], wrote := p.wrote + [Open(id)],
       log := p.log + [Accept(id)],
       since := p.since[id := |p.log| + 1], broker := p.broker.(channels := p.broker.channels[id := Inbox([], [])]))
  }

  lemma Establish(decode: Decoder, acts: seq<Action>, y: Pair, s: Pair, first: bool)
    returns (more: seq<Action>, z: Pair)
    requires Reaches(decode, acts, s) && Ready(y, first)
    requires s.Me(first) == Opening(y.Me(first)) && s.Me(!first) == Answering(y.Me(!first), NewId(y.Me(first)))
    requires NewId(y.Me(first)) !in y.Me(first).broker.channels && NewId(y.Me(first)) !in y.Me(first).broker.accepts
    ensures Reaches(decode, more, z) && acts <= more && z.Me(first) == Opened(y.Me(first))
    ensures z.Me(!first) == s.Me(!first)
  {
    var me, n, id := y.Me(first), |y.Me(first).openers|, NewId(y.Me(first));
    assert me.broker.accepts[id := n] - {id} == me.broker.accepts;
    more, z := Go(decode, acts, s, first, Process);
    more, z := Go(decode, more, z, first, Enroll(n));
  }

  /** A message on a channel that both ends have registered. */
  lemma Bring(decode: Decoder, acts: seq<Action>, s: Pair, first: bool, id: ChannelId, kind: int, payload: seq<byte>)
    returns (more: seq<Action>, z: Pair)
    requires Reaches(decode, acts, s) && decode(kind, payload).Some?
    requires var me, you := s.Me(first), s.Me(!first);
             && me.fault == NoFault && you.fault == NoFault && |you.log| == |me.wrote|
             && id in me.broker.channels && id in you.broker.channels && you.broker.channels[id] == Inbox([], [])
    ensures Reaches(decode, more, z) && acts <= more
    ensures id in z.Me(first).broker.channels && id in z.Me(!first).broker.channels
    ensures z.Me(!first).broker.channels[id] == Inbox([], [decode(kind, payload).value])
  {
    more, z := Go(decode, acts, s, first, Write(id, kind, payload));
    more, z := Go(decode, more, z, !first, Process);
    more, z := Go(decode, more, z, !first, Read(id));
  }

  /** From every reachable state in which nothing is left to process and nobody waits, either end can open a channel
      that the other one accepts, and a message that is written on it is read at the other end. */
  lemma ChannelsWork(decode: Decoder, acts: seq<Action>, y: Pair, first: bool, kind: int, payload: seq<byte>)
    returns (more: seq<Action>, z: Pair)
    requires Reaches(decode, acts, y) && Ready(y, first) && decode(kind, payload).Some?
    ensures Reaches(decode, more, z) && acts <= more
    ensures var id := NewId(y.Me(first));
            && id in z.Me(first).broker.channels && id in z.Me(!first).broker.channels
            && z.Me(!first).broker.channels[id] == Inbox([], [decode(kind, payload).value])
  {
    var id, j := NewId(y.Me(first)), |y.Me(!first).acceptors|;
    FreeNow(decode, acts, y, first);
    more, z := Offer(decode, acts, y, first);
    more, z := Answer(decode, more, y, z, first);
    more, z := Establish(decode, more, y, z, first);
    more, z := Go(decode, more, z, !first, Join(j));
    more, z := Bring(decode, more, z, first, id, kind, payload);
  }

  // ---- messages that are lost ----

  /** The last message that an end has written was decodable and for a channel that the other end has registered
      since it processed it; it is neither queued nor delivered there. */
  ghost predicate LastIsLost(decode: Decoder, z: Pair, first: bool, id: ChannelId, kind: int, payload: seq<byte>) {
    var me, you := z.Me(first), z.Me(!first);
    && decode(kind, payload).Some? && id in me.broker.channels && id in you.broker.channels
    && me.wrote != [] && me.wrote[|me.wrote| - 1] == Data(id, kind, payload) && |you.log| == |me.wrote|
    && you.broker.channels[id] == Inbox([], [])
  }

  /** The opening end writes as soon as its channel is accepted, and the message is lost: the accepting end writes its
      accept message before it registers the channel. */
  lemma AcceptedDataLost(decode: Decoder, acts: seq<Action>, y: Pair, first: bool, kind: int, payload: seq<byte>)
    returns (more: seq<Action>, z: Pair)
    requires Reaches(decode, acts, y) && Ready(y, first) && decode(kind, payload).Some?
    ensures Reaches(decode, more, z) && acts <= more && LastIsLost(decode, z, first, NewId(y.Me(first)), kind, payload)
  {
    var id, j := NewId(y.Me(first)), |y.Me(!first).acceptors|;
    FreeNow(decode, acts, y, first);
    more, z := Offer(decode, acts, y, first);
    more, z := Answer(decode, more, y, z, first);
    more, z := Establish(decode, more, y, z, first);
    more, z := Go(decode, more, z, first, Write(id, kind, payload));
    more, z := Drop(decode, more, z, !first, id, kind, payload);
    more, z := Go(decode, more, z, !first, Join(j));
  }

  /** The accepting end writes as soon as it has registered the channel, and the message is lost: the opening end has
      processed the accept message but not yet registered the channel. */
  lemma AcceptorDataLost(decode: Decoder, acts: seq<Action>, y: Pair, first: bool, kind: int, payload: seq<byte>)
    returns (more: seq<Action>, z: Pair)
    requires Reaches(decode, acts, y) && Ready(y, first) && decode(kind, payload).Some?
    ensures Reaches(decode, more, z) && acts <= more && LastIsLost(decode, z, !first, NewId(y.Me(first)), kind, payload)
  {
    var id, j, n := NewId(y.Me(first)), |y.Me(!first).acceptors|, |y.Me(first).openers|;
    FreeNow(decode, acts, y, first);
    more, z := Offer(decode, acts, y, first);
    more, z := Answer(decode, more, y, z, first);
    more, z := Go(decode, more, z, !first, Join(j));
    more, z := Go(decode, more, z, !first, Write(id, kind, payload));
    more, z := Miss(decode, more, z, first, n, id, kind, payload);
  }

  /** An opener that processes the accept message and a message behind it before it registers its channel. */
  lemma Miss(decode: Decoder, acts: seq<Action>, s: Pair, first: bool, n: nat, id: ChannelId, kind: int,
             payload: seq<byte>)
    returns (more: seq<Action>, z: Pair)
    requires Reaches(decode, acts, s) && decode(kind, payload).Some?
    requires var me, you := s.Me(first), s.Me(!first);
             && me.fault == NoFault && n < |me.openers| && me.openers[n] == Opener(id, Sent, false)
             && id in me.broker.accepts && me.broker.accepts[id] == n && id !in me.broker.channels
             && id in you.broker.channels && |you.wrote| == |me.log| + 2
             && you.wrote[|me.log|] == Accept(id) && you.wrote[|me.log| + 1] == Data(id, kind, payload)
    ensures Reaches(decode, more, z) && acts <= more && LastIsLost(decode, z, !first, id, kind, payload)
  {
    more, z := Go(decode, acts, s, first, Process);
    more, z := Drop(decode, more, z, first, id, kind, payload);
    more, z := Go(decode, more, z, first, Enroll(n));
  }

  /** A message for a channel that is not registered changes nothing but the log. */
  lemma Drop(decode: Decoder, acts: seq<Action>, s: Pair, first: bool, id: ChannelId, kind: int, payload: seq<byte>)
    returns (more: seq<Action>, z: Pair)
    requires Reaches(decode, acts, s) && s.Me(first).fault == NoFault && id !in s.Me(first).broker.channels
    requires |s.Me(first).log| < |s.Me(!first).wrote|
    requires s.Me(!first).wrote[|s.Me(first).log|] == Data(id, kind, payload)
    ensures Reaches(decode, more, z) && acts <= more && z.Me(!first) == s.Me(!first)
    ensures z.Me(first) == s.Me(first).(log := s.Me(first).log + [Data(id, kind, payload)])
  {
    more, z := Go(decode, acts, s, first, Process);
  }
}
