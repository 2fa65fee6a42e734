/** What holds in every state that two connected sessions can reach. */
module SessionSafety {
  import opened Blocks
  import opened Mux
  import opened Session
  import Runs

  // ---- identifiers ----

  /** The openers of an end have the identifiers that the end makes, in order and without a wrap. */
  ghost predicate Numbered(p: Peer) {
    && (forall i :: 0 <= i < |p.openers| ==> p.openers[i].id == FirstId(p.initiator) + 2 * i)
    && (forall i :: 0 <= i < |p.openers| && p.openers[i].phase == Made ==> !p.openers[i].accepted)
    && FirstId(p.initiator) + 2 * (|p.openers| - 1) < TWO_64
  }

  /** An identifier that the other end makes. */
  predicate Foreign(p: Peer, id: ChannelId) {
    id % 2 != FirstId(p.initiator) % 2
  }

  /** The identifiers of an end's acceptors are foreign and different. */
  ghost predicate Answering(p: Peer) {
    && (forall j :: 0 <= j < |p.acceptors| && !p.acceptors[j].Idle? ==> Foreign(p, p.acceptors[j].id))
    && (forall i, j :: 0 <= i < j < |p.acceptors| && !p.acceptors[i].Idle? && !p.acceptors[j].Idle? ==>
          p.acceptors[i].id != p.acceptors[j].id)
  }

  /** The broker's tables are about the tasks of its own end. */
  ghost predicate Tabled(p: Peer) {
    && (forall id :: id in p.broker.accepts ==> WaitOk(p, id, p.broker.accepts[id]))
    && (forall i :: 0 <= i < |p.openers| && p.openers[i].phase != Opened ==> p.openers[i].id !in p.broker.channels)
    && (forall j :: 0 <= j < |p.acceptors| && (p.acceptors[j].Given? || p.acceptors[j].Answered?) ==>
          p.acceptors[j].id !in p.broker.channels)
    && (forall id :: id in p.broker.channels ==> Foreign(p, id) || id < FirstId(p.initiator) + 2 * |p.openers|)
    && (p.broker.opens.Some? ==> p.broker.opens.value < |p.acceptors| && p.acceptors[p.broker.opens.value].Idle?)
  }

  ghost predicate WaitOk(p: Peer, id: ChannelId, i: nat) {
    i < |p.openers| && p.openers[i].id == id && p.openers[i].phase in {Waiting, Sent} && !p.openers[i].accepted
  }

  ghost predicate Local(p: Peer) {
    p.fault != IdPanic && Numbered(p) && Answering(p) && Tabled(p)
  }

  // ---- the connection ----

  /** Open messages that were written are about openers that have written them, each once. */
  ghost predicate OpensOnce(p: Peer) {
    && (forall k :: 0 <= k < |p.wrote| && p.wrote[k].Open? ==> OpenSent(p, p.wrote[k].id))
    && (forall k, l :: 0 <= k < l < |p.wrote| && p.wrote[k].Open? && p.wrote[l].Open? ==>
          p.wrote[k].id != p.wrote[l].id)
  }

  ghost predicate OpenSent(p: Peer, id: ChannelId) {
    exists i :: 0 <= i < |p.openers| && p.openers[i].id == id && p.openers[i].phase in {Sent, Opened}
  }

  /** What was processed was written, and a channel was given to an acceptor because an open message was processed. */
  ghost predicate Heard(p: Peer, from: seq<Wire>) {
    && p.log <= from
    && (forall j :: 0 <= j < |p.acceptors| && !p.acceptors[j].Idle? ==> Open(p.acceptors[j].id) in p.log)
  }

  /** Accept messages that were written are about acceptors that have written them, each once. */
  ghost predicate AcceptsOnce(p: Peer) {
    && (forall k :: 0 <= k < |p.wrote| && p.wrote[k].Accept? ==> AcceptSent(p, p.wrote[k].id))
    && (forall k, l :: 0 <= k < l < |p.wrote| && p.wrote[k].Accept? && p.wrote[l].Accept? ==>
          p.wrote[k].id != p.wrote[l].id)
  }

  ghost predicate AcceptSent(p: Peer, id: ChannelId) {
    exists j :: 0 <= j < |p.acceptors| && p.acceptors[j] in {Answered(id), Serving(id)}
  }

  /** An opener waits until an accept message was processed, and a channel has a task that registered it. */
  ghost predicate Released(p: Peer) {
    && (forall i :: 0 <= i < |p.openers| ==> ReleasedOk(p, p.openers[i]))
    && (forall id :: id in p.broker.channels ==> Owned(p, id))
  }

  ghost predicate ReleasedOk(p: Peer, o: Opener) {
    && (o.accepted ==> Accept(o.id) in p.log)
    && (o.phase == Opened ==> o.accepted)
    && (o.phase in {Waiting, Sent} && !o.accepted ==> o.id in p.broker.accepts)
  }

  ghost predicate Owned(p: Peer, id: ChannelId) {
    || (exists i :: 0 <= i < |p.openers| && p.openers[i].id == id && p.openers[i].phase == Opened)
    || (exists j :: 0 <= j < |p.acceptors| && p.acceptors[j] == Serving(id))
  }

  /** Data is written on registered channels only. */
  ghost predicate Registered(p: Peer) {
    forall k :: 0 <= k < |p.wrote| && p.wrote[k].Data? ==> p.wrote[k].id in p.broker.channels
  }

  // ---- the queues ----

  ghost predicate QueueOk(decode: Decoder, p: Peer, id: ChannelId)
    requires id in p.broker.channels
  {
    ChannelFifo(decode, p.broker.channels, p.since, p.log, id)
  }

  ghost predicate Queues(decode: Decoder, p: Peer) {
    Fifo(decode, p.broker.channels, p.since, p.log)
  }

  ghost predicate EndInv(decode: Decoder, p: Peer, from: seq<Wire>) {
    Local(p) && OpensOnce(p) && AcceptsOnce(p) && Heard(p, from) && Released(p)
    && Registered(p) && Queues(decode, p)
  }

  ghost predicate Inv(decode: Decoder, y: Pair) {
    y.a.initiator && !y.b.initiator && EndInv(decode, y.a, y.b.wrote) && EndInv(decode, y.b, y.a.wrote)
  }

  // ---- one end: identifiers ----

  lemma CreateKeeps(p: Peer, from: seq<Wire>, decode: Decoder)
    requires Local(p) && Enabled(p, from, Create)
    ensures Local(Apply(decode, p, from, Create))
  {
  }

  lemma AwaitKeeps(p: Peer, from: seq<Wire>, decode: Decoder, i: nat)
    requires Local(p) && Enabled(p, from, Await(i))
    ensures Local(Apply(decode, p, from, Await(i)))
  {
  }

  lemma SendOpenKeeps(p: Peer, from: seq<Wire>, decode: Decoder, i: nat)
    requires Local(p) && Enabled(p, from, SendOpen(i))
    ensures Local(Apply(decode, p, from, SendOpen(i)))
  {
  }

  lemma EnrollKeeps(p: Peer, from: seq<Wire>, decode: Decoder, i: nat)
    requires Local(p) && Enabled(p, from, Enroll(i))
    ensures Local(Apply(decode, p, from, Enroll(i)))
  {
    var q := Apply(decode, p, from, Enroll(i));
    var id := p.openers[i].id;
    assert id !in p.broker.channels;
    forall x | x in q.broker.accepts
      ensures WaitOk(q, x, q.broker.accepts[x])
    {
      assert WaitOk(p, x, p.broker.accepts[x]);
    }
  }

  lemma ListenKeeps(p: Peer, from: seq<Wire>, decode: Decoder)
    requires Local(p) && Enabled(p, from, Listen)
    ensures Local(Apply(decode, p, from, Listen))
  {
  }

  lemma SendAcceptKeeps(p: Peer, from: seq<Wire>, decode: Decoder, j: nat)
    requires Local(p) && Enabled(p, from, SendAccept(j))
    ensures Local(Apply(decode, p, from, SendAccept(j)))
  {
  }

  lemma JoinKeeps(p: Peer, from: seq<Wire>, decode: Decoder, j: nat)
    requires Local(p) && Enabled(p, from, Join(j))
    ensures Local(Apply(decode, p, from, Join(j)))
  {
    var q := Apply(decode, p, from, Join(j));
    var id := p.acceptors[j].id;
    assert id !in p.broker.channels;
    forall i | 0 <= i < |p.openers|
      ensures p.openers[i].id != id
    {
      OwnIsNotForeign(p, i);
    }
    forall x | x in q.broker.accepts
      ensures WaitOk(q, x, q.broker.accepts[x])
    {
      assert WaitOk(p, x, p.broker.accepts[x]);
    }
  }

  lemma OwnIsNotForeign(p: Peer, i: nat)
    requires Numbered(p) && i < |p.openers|
    ensures !Foreign(p, p.openers[i].id)
  {
  }

  lemma ReadKeeps(p: Peer, from: seq<Wire>, decode: Decoder, id: ChannelId)
    requires Local(p) && Enabled(p, from, Read(id))
    ensures Local(Apply(decode, p, from, Read(id)))
  {
  }

  lemma WriteKeeps(p: Peer, from: seq<Wire>, decode: Decoder, id: ChannelId, kind: int, payload: seq<byte>)
    requires Local(p) && Enabled(p, from, Write(id, kind, payload))
    ensures Local(Apply(decode, p, from, Write(id, kind, payload)))
  {
  }

  /** An open message with a foreign identifier that no acceptor has. */
  lemma OpenKeeps(decode: Decoder, p: Peer, id: ChannelId)
    requires Local(p) && Foreign(p, id)
    requires forall j :: 0 <= j < |p.acceptors| && !p.acceptors[j].Idle? ==> p.acceptors[j].id != id
    ensures Local(Deliver(decode, p, Open(id)))
  {
  }

  lemma AcceptKeeps(decode: Decoder, p: Peer, id: ChannelId)
    requires Local(p)
    ensures Local(Deliver(decode, p, Accept(id)))
  {
  }

  lemma DataKeeps(decode: Decoder, p: Peer, id: ChannelId, kind: int, payload: seq<byte>)
    requires Local(p)
    ensures Local(Deliver(decode, p, Data(id, kind, payload)))
  {
  }

  // ---- one end: what it writes and hears ----

  /** Openers only move on, and what is written other than by `SendOpen` is no open message. */
  ghost predicate MovesOn(p: Peer, q: Peer) {
    && |p.openers| <= |q.openers|
    && (forall i :: 0 <= i < |p.openers| ==>
          && q.openers[i].id == p.openers[i].id
          && (p.openers[i].phase in {Sent, Opened} ==> q.openers[i].phase in {Sent, Opened}))
  }

  lemma StillSent(p: Peer, q: Peer, id: ChannelId)
    requires MovesOn(p, q) && OpenSent(p, id)
    ensures OpenSent(q, id)
  {
  }

  lemma OtherWrites(p: Peer, q: Peer)
    requires OpensOnce(p) && MovesOn(p, q)
    requires || q.wrote == p.wrote
             || (|q.wrote| == |p.wrote| + 1 && q.wrote[..|p.wrote|] == p.wrote && !q.wrote[|p.wrote|].Open?)
    ensures OpensOnce(q)
  {
  }

  /** An identifier whose open message is yet to be written is in none. */
  lemma NotYetOpen(p: Peer, i: nat, k: nat)
    requires OpensOnce(p) && Numbered(p) && i < |p.openers| && p.openers[i].phase == Waiting && k < |p.wrote|
    ensures p.wrote[k] != Open(p.openers[i].id)
  {
  }

  lemma SendOpenWrites(p: Peer, from: seq<Wire>, decode: Decoder, i: nat)
    requires OpensOnce(p) && Numbered(p) && Enabled(p, from, SendOpen(i))
    ensures OpensOnce(Apply(decode, p, from, SendOpen(i)))
  {
    var q := Apply(decode, p, from, SendOpen(i));
    assert MovesOn(p, q);
    forall k | 0 <= k < |q.wrote| && q.wrote[k].Open?
      ensures OpenSent(q, q.wrote[k].id)
    {
      if k < |p.wrote| {
        StillSent(p, q, p.wrote[k].id);
      } else {
        assert q.openers[i].id == q.wrote[k].id;
      }
    }
    forall k, l | 0 <= k < l < |q.wrote| && q.wrote[k].Open? && q.wrote[l].Open?
      ensures q.wrote[k].id != q.wrote[l].id
    {
      NotYetOpen(p, i, k);
    }
  }

  lemma DeliverMovesOn(decode: Decoder, p: Peer, m: Wire)
    ensures MovesOn(p, Deliver(decode, p, m)) && Deliver(decode, p, m).wrote == p.wrote
    ensures Deliver(decode, p, m).log == p.log
  {
  }

  lemma WritesKeep(p: Peer, from: seq<Wire>, decode: Decoder, a: Act)
    requires OpensOnce(p) && Numbered(p) && Enabled(p, from, a)
    ensures OpensOnce(Apply(decode, p, from, a))
  {
    if a.SendOpen? {
      SendOpenWrites(p, from, decode, a.i);
    } else {
      if a.Process? {
        DeliverMovesOn(decode, p, from[|p.log|]);
      }
      OtherWrites(p, Apply(decode, p, from, a));
    }
  }

  /** A foreign identifier in an open message that comes next was given to no acceptor. */
  lemma OpenIsNew(p: Peer, you: Peer, id: ChannelId)
    requires Heard(p, you.wrote) && OpensOnce(you) && Numbered(you) && p.initiator != you.initiator
    requires |p.log| < |you.wrote| && you.wrote[|p.log|] == Open(id)
    ensures Foreign(p, id)
    ensures forall j :: 0 <= j < |p.acceptors| && !p.acceptors[j].Idle? ==> p.acceptors[j].id != id
  {
  }

  lemma HearsKeep(p: Peer, from: seq<Wire>, decode: Decoder, a: Act)
    requires Heard(p, from) && Enabled(p, from, a)
    ensures Heard(Apply(decode, p, from, a), from)
  {
  }

  // ---- one end: what it accepts and releases ----

  /** Acceptors keep their channel and do not go back. */
  ghost predicate AcceptorsMoveOn(p: Peer, q: Peer) {
    |p.acceptors| <= |q.acceptors|
    && forall j :: 0 <= j < |p.acceptors| && p.acceptors[j] != q.acceptors[j] ==>
         p.acceptors[j].Idle? || (p.acceptors[j].Given? && q.acceptors[j] == Answered(p.acceptors[j].id))
         || (p.acceptors[j].Answered? && q.acceptors[j] == Serving(p.acceptors[j].id))
  }

  lemma StillAcceptSent(p: Peer, q: Peer, id: ChannelId)
    requires AcceptorsMoveOn(p, q) && AcceptSent(p, id)
    ensures AcceptSent(q, id)
  {
    var j :| 0 <= j < |p.acceptors| && p.acceptors[j] in {Answered(id), Serving(id)};
    assert q.acceptors[j] in {Answered(id), Serving(id)};
  }

  lemma OtherAccepts(p: Peer, q: Peer)
    requires AcceptsOnce(p) && AcceptorsMoveOn(p, q)
    requires || q.wrote == p.wrote
             || (|q.wrote| == |p.wrote| + 1 && q.wrote[..|p.wrote|] == p.wrote && !q.wrote[|p.wrote|].Accept?)
    ensures AcceptsOnce(q)
  {
    forall k | 0 <= k < |q.wrote| && q.wrote[k].Accept?
      ensures AcceptSent(q, q.wrote[k].id)
    {
      assert q.wrote[k] == p.wrote[k];
      StillAcceptSent(p, q, p.wrote[k].id);
    }
  }

  lemma NotYetAccepted(p: Peer, j: nat, k: nat)
    requires AcceptsOnce(p) && Answering(p) && j < |p.acceptors| && p.acceptors[j].Given? && k < |p.wrote|
    ensures p.wrote[k] != Accept(p.acceptors[j].id)
  {
    if p.wrote[k].Accept? {
      assert AcceptSent(p, p.wrote[k].id);
    }
  }

  lemma SendAcceptWrites(p: Peer, from: seq<Wire>, decode: Decoder, j: nat)
    requires AcceptsOnce(p) && Answering(p) && Enabled(p, from, SendAccept(j))
    ensures AcceptsOnce(Apply(decode, p, from, SendAccept(j)))
  {
    var q := Apply(decode, p, from, SendAccept(j));
    forall k | 0 <= k < |q.wrote| && q.wrote[k].Accept?
      ensures AcceptSent(q, q.wrote[k].id)
      ensures k < |p.wrote| ==> q.wrote[k].id != p.acceptors[j].id
    {
      if k < |p.wrote| {
        NotYetAccepted(p, j, k);
        StillAcceptSent(p, q, p.wrote[k].id);
      } else {
        assert q.acceptors[j] == Answered(q.wrote[k].id);
      }
    }
  }

  lemma DeliverAccepts(decode: Decoder, p: Peer, m: Wire)
    requires Tabled(p)
    ensures AcceptorsMoveOn(p, Deliver(decode, p, m))
  {
  }

  lemma AcceptsKeep(p: Peer, from: seq<Wire>, decode: Decoder, a: Act)
    requires AcceptsOnce(p) && Local(p) && Enabled(p, from, a)
    ensures AcceptsOnce(Apply(decode, p, from, a))
  {
    if a.SendAccept? {
      SendAcceptWrites(p, from, decode, a.j);
    } else {
      if a.Process? {
        DeliverAccepts(decode, p, from[|p.log|]);
        DeliverMovesOn(decode, p, from[|p.log|]);
      }
      OtherAccepts(p, Apply(decode, p, from, a));
    }
  }

  /** No task goes back. */
  ghost predicate Onward(p: Peer, q: Peer) {
    && AcceptorsMoveOn(p, q) && |p.openers| <= |q.openers|
    && (forall i :: 0 <= i < |p.openers| ==>
          q.openers[i].id == p.openers[i].id && (p.openers[i].phase == Opened ==> q.openers[i].phase == Opened))
  }

  lemma StillOwned(p: Peer, q: Peer, id: ChannelId)
    requires Onward(p, q) && Owned(p, id)
    ensures Owned(q, id)
  {
    if i :| 0 <= i < |p.openers| && p.openers[i].id == id && p.openers[i].phase == Opened {
      assert q.openers[i].id == id;
    } else {
      var j :| 0 <= j < |p.acceptors| && p.acceptors[j] == Serving(id);
      assert q.acceptors[j] == Serving(id);
    }
  }

  lemma AllStillOwned(p: Peer, q: Peer)
    requires Onward(p, q) && Released(p)
    requires forall id :: id in q.broker.channels ==> id in p.broker.channels || Owned(q, id)
    ensures forall id :: id in q.broker.channels ==> Owned(q, id)
  {
    forall id | id in q.broker.channels && id in p.broker.channels
      ensures Owned(q, id)
    {
      StillOwned(p, q, id);
    }
  }

  lemma OpenerReleases(p: Peer, from: seq<Wire>, decode: Decoder, a: Act)
    requires Local(p) && Released(p) && Enabled(p, from, a) && (a.Create? || a.Await? || a.SendOpen?)
    ensures Released(Apply(decode, p, from, a))
  {
    var q := Apply(decode, p, from, a);
    AllStillOwned(p, q);
    forall i | 0 <= i < |q.openers|
      ensures ReleasedOk(q, q.openers[i])
    {
      assert i < |p.openers| ==> ReleasedOk(p, p.openers[i]);
    }
  }

  lemma EnrollReleases(p: Peer, from: seq<Wire>, decode: Decoder, n: nat)
    requires Local(p) && Released(p) && Enabled(p, from, Enroll(n))
    ensures Released(Apply(decode, p, from, Enroll(n)))
  {
    var q := Apply(decode, p, from, Enroll(n));
    assert q.openers[n].phase == Opened;
    AllStillOwned(p, q);
    forall i | 0 <= i < |q.openers|
      ensures ReleasedOk(q, q.openers[i])
    {
      assert ReleasedOk(p, p.openers[i]);
    }
  }

  lemma AcceptorReleases(p: Peer, from: seq<Wire>, decode: Decoder, a: Act)
    requires Local(p) && Released(p) && Enabled(p, from, a)
    requires a.Listen? || a.SendAccept? || a.Join? || a.Write? || a.Read?
    ensures Released(Apply(decode, p, from, a))
  {
    var q := Apply(decode, p, from, a);
    assert a.Join? ==> q.acceptors[a.j] == Serving(p.acceptors[a.j].id);
    AllStillOwned(p, q);
    forall i | 0 <= i < |q.openers|
      ensures ReleasedOk(q, q.openers[i])
    {
      assert ReleasedOk(p, p.openers[i]);
    }
  }

  /** What a message changes about the openers: an accept message releases the one that waits for it. */
  lemma DeliverReleases(decode: Decoder, p: Peer, m: Wire, i: nat)
    requires Numbered(p) && Tabled(p) && i < |p.openers|
    ensures var q := Deliver(decode, p, m);
            && |q.openers| == |p.openers|
            && q.openers[i] == p.openers[i].(accepted := q.openers[i].accepted)
            && (q.openers[i] != p.openers[i] ==> m == Accept(p.openers[i].id) && q.openers[i].accepted)
            && (q.openers[i] == p.openers[i] && p.openers[i].id in p.broker.accepts ==>
                  p.openers[i].id in q.broker.accepts || p.openers[i].accepted)
  {
    if m.Accept? && m.id in p.broker.accepts {
      assert WaitOk(p, m.id, p.broker.accepts[m.id]);
    }
  }

  lemma DeliverOnward(decode: Decoder, p: Peer, m: Wire, log: seq<Wire>)
    requires Numbered(p) && Tabled(p)
    ensures var q := Deliver(decode, p, m).(log := log);
            Onward(p, q) && q.broker.channels.Keys == p.broker.channels.Keys
  {
    DeliverAccepts(decode, p, m);
    DeliverAdds(decode, p, m, 0);
    forall i: nat | i < |p.openers|
      ensures var q := Deliver(decode, p, m);
              |q.openers| == |p.openers| && q.openers[i] == p.openers[i].(accepted := q.openers[i].accepted)
    {
      DeliverReleases(decode, p, m, i);
    }
  }

  lemma ProcessReleases(p: Peer, from: seq<Wire>, decode: Decoder)
    requires Local(p) && Released(p) && Enabled(p, from, Process)
    ensures Released(Apply(decode, p, from, Process))
  {
    var m := from[|p.log|];
    var q := Apply(decode, p, from, Process);
    forall i | 0 <= i < |q.openers|
      ensures ReleasedOk(q, q.openers[i])
    {
      DeliverReleases(decode, p, m, i);
      assert ReleasedOk(p, p.openers[i]);
      assert q.log[|p.log|] == m;
    }
    DeliverOnward(decode, p, m, q.log);
    AllStillOwned(p, q);
  }

  lemma ReleasesKeep(p: Peer, from: seq<Wire>, decode: Decoder, a: Act)
    requires Local(p) && Released(p) && Enabled(p, from, a)
    ensures Released(Apply(decode, p, from, a))
  {
    match a {
      case Process => ProcessReleases(p, from, decode);
      case Create => OpenerReleases(p, from, decode, a);
      case Await(_) => OpenerReleases(p, from, decode, a);
      case SendOpen(_) => OpenerReleases(p, from, decode, a);
      case Enroll(n) => EnrollReleases(p, from, decode, n);
      case _ => AcceptorReleases(p, from, decode, a);
    }
  }

  // ---- one end: what never changes again ----

  /** Channels stay, with the place in the log where they were registered; the log and what was written only grow. */
  ghost predicate Grows(p: Peer, q: Peer) {
    && p.log <= q.log && p.wrote <= q.wrote
    && (forall id :: id in p.broker.channels ==> id in q.broker.channels)
    && (forall id :: id in p.broker.channels && id in p.since ==> id in q.since && q.since[id] == p.since[id])
  }

  lemma ActGrows(p: Peer, from: seq<Wire>, decode: Decoder, a: Act)
    requires Enabled(p, from, a)
    ensures Grows(p, Apply(decode, p, from, a))
  {
    if a.Process? {
      DeliverMovesOn(decode, p, from[|p.log|]);
      DeliverAdds(decode, p, from[|p.log|], 0);
    }
  }

  lemma RegisteredKeep(p: Peer, from: seq<Wire>, decode: Decoder, a: Act)
    requires Registered(p) && Enabled(p, from, a)
    ensures Registered(Apply(decode, p, from, a))
  {
    ActGrows(p, from, decode, a);
    var q := Apply(decode, p, from, a);
    if a.Process? {
      DeliverMovesOn(decode, p, from[|p.log|]);
    }
    forall k | 0 <= k < |q.wrote| && q.wrote[k].Data?
      ensures q.wrote[k].id in q.broker.channels
    {
      assert k < |p.wrote| ==> q.wrote[k] == p.wrote[k];
    }
  }

  // ---- one end: the queues ----

  /** Whatever a message does to the broker, it adds to each channel what is meant for it. */
  lemma DeliverAdds(decode: Decoder, p: Peer, m: Wire, id: ChannelId)
    ensures var q := Deliver(decode, p, m);
            && q.since == p.since && q.log == p.log && q.broker.channels.Keys == p.broker.channels.Keys
            && (id in p.broker.channels ==>
                  && q.broker.channels[id].delivered == p.broker.channels[id].delivered
                  && q.broker.channels[id].queue == p.broker.channels[id].queue + Adds(decode, m, id))
  {
  }

  lemma ProcessQueues(p: Peer, from: seq<Wire>, decode: Decoder)
    requires Queues(decode, p) && Enabled(p, from, Process)
    ensures Queues(decode, Apply(decode, p, from, Process))
  {
    var m := from[|p.log|];
    forall id | id in p.broker.channels
      ensures var to := Deliver(decode, p, m).broker.channels;
              && id in to && to[id].delivered == p.broker.channels[id].delivered
              && to[id].queue == p.broker.channels[id].queue + Adds(decode, m, id)
    {
      DeliverAdds(decode, p, m, id);
    }
    DeliverAdds(decode, p, m, 0);
    MessageFifo(decode, p.broker.channels, p.since, p.log, m, Deliver(decode, p, m).broker.channels);
  }

  lemma RegisterQueues(decode: Decoder, p: Peer, id: ChannelId)
    requires Queues(decode, p)
    ensures Queues(decode, Enlist(p, id))
  {
    if id !in p.broker.channels {
      RegisterFifo(decode, p.broker, p.since, p.log, id);
    }
  }

  lemma QueuesKeep(p: Peer, from: seq<Wire>, decode: Decoder, a: Act)
    requires Queues(decode, p) && Enabled(p, from, a)
    ensures Queues(decode, Apply(decode, p, from, a))
  {
    match a {
      case Process => ProcessQueues(p, from, decode);
      case Read(id) => TakeFifo(decode, p.broker, p.since, p.log, id);
      case Enroll(i) => RegisterQueues(decode, p, p.openers[i].id);
      case Join(j) => RegisterQueues(decode, p, p.acceptors[j].id);
      case _ =>
    }
  }

  // ---- every run ----

  lemma ProcessKeeps(p: Peer, you: Peer, decode: Decoder)
    requires Local(p) && Enabled(p, you.wrote, Process)
    requires Heard(p, you.wrote) && OpensOnce(you) && Numbered(you) && p.initiator != you.initiator
    ensures Local(Apply(decode, p, you.wrote, Process))
  {
    var m := you.wrote[|p.log|];
    match m {
      case Open(id) => OpenIsNew(p, you, id); OpenKeeps(decode, p, id);
      case Accept(id) => AcceptKeeps(decode, p, id);
      case Close(_) =>
      case Data(id, kind, payload) => DataKeeps(decode, p, id, kind, payload);
    }
    LogOnly(Deliver(decode, p, m), p.log + [m]);
  }

  lemma LogOnly(p: Peer, log: seq<Wire>)
    requires Local(p)
    ensures Local(p.(log := log))
  {
  }

  lemma LocalKeeps(p: Peer, you: Peer, decode: Decoder, a: Act)
    requires Local(p) && Enabled(p, you.wrote, a)
    requires Heard(p, you.wrote) && OpensOnce(you) && Numbered(you) && p.initiator != you.initiator
    ensures Local(Apply(decode, p, you.wrote, a))
  {
    match a {
      case Create => CreateKeeps(p, you.wrote, decode);
      case Await(i) => AwaitKeeps(p, you.wrote, decode, i);
      case SendOpen(i) => SendOpenKeeps(p, you.wrote, decode, i);
      case Enroll(i) => EnrollKeeps(p, you.wrote, decode, i);
      case Listen => ListenKeeps(p, you.wrote, decode);
      case SendAccept(j) => SendAcceptKeeps(p, you.wrote, decode, j);
      case Join(j) => JoinKeeps(p, you.wrote, decode, j);
      case Write(id, kind, payload) => WriteKeeps(p, you.wrote, decode, id, kind, payload);
      case Read(id) => ReadKeeps(p, you.wrote, decode, id);
      case Process => ProcessKeeps(p, you, decode);
    }
  }

  lemma EndKeeps(p: Peer, you: Peer, decode: Decoder, a: Act)
    requires EndInv(decode, p, you.wrote) && EndInv(decode, you, p.wrote) && p.initiator != you.initiator
    requires Enabled(p, you.wrote, a)
    ensures EndInv(decode, Apply(decode, p, you.wrote, a), you.wrote)
  {
    LocalKeeps(p, you, decode, a);
    WritesKeep(p, you.wrote, decode, a);
    AcceptsKeep(p, you.wrote, decode, a);
    ReleasesKeep(p, you.wrote, decode, a);
    HearsKeep(p, you.wrote, decode, a);
    RegisteredKeep(p, you.wrote, decode, a);
    QueuesKeep(p, you.wrote, decode, a);
  }

  /** An end that stays as it is, while the other one writes. */
  lemma OtherEnd(p: Peer, you: Peer, decode: Decoder, a: Act)
    requires EndInv(decode, you, p.wrote) && Enabled(p, you.wrote, a)
    ensures EndInv(decode, you, Apply(decode, p, you.wrote, a).wrote)
    ensures Apply(decode, p, you.wrote, a).initiator == p.initiator
  {
  }

  lemma StepKeeps(decode: Decoder, y: Pair, a: Action, z: Pair)
    requires Inv(decode, y) && Step(decode, y, a, z)
    ensures Inv(decode, z)
  {
    EndKeeps(y.Me(a.first), y.Me(!a.first), decode, a.act);
    OtherEnd(y.Me(a.first), y.Me(!a.first), decode, a.act);
  }

  lemma StartOk(decode: Decoder)
    ensures Inv(decode, START)
  {
  }

  lemma EveryRun(decode: Decoder, acts: seq<Action>, y: Pair)
    requires Reaches(decode, acts, y)
    ensures Inv(decode, y)
  {
    var next := (x, a, z) => Step(decode, x, a, z);
    var inv: (seq<Action>, Pair) -> bool := (_, x) => Inv(decode, x);
    forall before, x, a, z | inv(before, x) && next(x, a, z)
      ensures inv(before + [a], z)
    {
      StepKeeps(decode, x, a, z);
    }
    StartOk(decode);
    Runs.RunInduction(START, next, inv, acts, y);
  }

  /** Before the counters wrap around no broker panics about an identifier, in any run; no identifier is zero, repeated
      or made by both ends. */
  lemma NoIdPanics(decode: Decoder, acts: seq<Action>, y: Pair)
    requires Reaches(decode, acts, y)
    ensures y.a.fault != IdPanic && y.b.fault != IdPanic
    ensures forall first, i :: 0 <= i < |y.Me(first).openers| ==> y.Me(first).openers[i].id != 0
    ensures forall first, first', i, j ::
              0 <= i < |y.Me(first).openers| && 0 <= j < |y.Me(first').openers| ==>
                (y.Me(first).openers[i].id == y.Me(first').openers[j].id <==> first == first' && i == j)
  {
    EveryRun(decode, acts, y);
    forall first: bool, first': bool, i, j | 0 <= i < |y.Me(first).openers| && 0 <= j < |y.Me(first').openers|
      ensures y.Me(first).openers[i].id == y.Me(first').openers[j].id <==> first == first' && i == j
    {
      OwnIsNotForeign(y.Me(first), i);
      OwnIsNotForeign(y.Me(first'), j);
    }
  }

  /** An accept message that comes next is for an opener that waits for it. */
  lemma AcceptIsAwaited(p: Peer, you: Peer, id: ChannelId) returns (i: nat)
    requires Local(p) && OpensOnce(p) && Released(p) && Heard(p, you.wrote) && Heard(you, p.wrote) && AcceptsOnce(you)
    requires |p.log| < |you.wrote| && you.wrote[|p.log|] == Accept(id)
    ensures i < |p.openers| && p.openers[i] == Opener(id, Sent, false) && InAccept(p.broker, id).1 == Some(i)
  {
    assert AcceptSent(you, id);
    var j :| 0 <= j < |you.acceptors| && you.acceptors[j] in {Answered(id), Serving(id)};
    var k :| 0 <= k < |you.log| && you.log[k] == Open(id);
    assert p.wrote[k] == Open(id);
    assert OpenSent(p, id);
    i :| 0 <= i < |p.openers| && p.openers[i].id == id && p.openers[i].phase in {Sent, Opened};
    assert ReleasedOk(p, p.openers[i]);
    NotYetHeard(p, you.wrote, you, id);
    assert WaitOk(p, id, p.broker.accepts[id]);
  }

  lemma NotYetHeard(p: Peer, from: seq<Wire>, you: Peer, id: ChannelId)
    requires AcceptsOnce(you) && from == you.wrote && p.log <= from && |p.log| < |from| && from[|p.log|] == Accept(id)
    ensures Accept(id) !in p.log
  {
  }

  /** A channel that nobody has opened or answered does not exist. */
  lemma NotOwned(p: Peer, id: ChannelId)
    requires Numbered(p) && Released(p) && Foreign(p, id)
    requires forall j :: 0 <= j < |p.acceptors| && !p.acceptors[j].Idle? ==> p.acceptors[j].id != id
    ensures id !in p.broker.channels
  {
    forall i: nat | i < |p.openers|
      ensures p.openers[i].id != id
    {
      OwnIsNotForeign(p, i);
    }
    assert id in p.broker.channels ==> Owned(p, id);
  }

  /** No open or accept message is ever ignored while a task waits for it: an open message goes to the acceptor that
      waits, if one does, and an accept message releases the opener that has sent the open message. */
  lemma NothingIgnored(decode: Decoder, acts: seq<Action>, y: Pair, first: bool)
    requires Reaches(decode, acts, y) && |y.Me(first).log| < |y.Me(!first).wrote|
    ensures var me := y.Me(first);
            match y.Me(!first).wrote[|me.log|]
            case Open(id) => InOpen(me.broker, id).1 == me.broker.opens
            case Accept(id) =>
              exists i: nat :: i < |me.openers| && me.openers[i] == Opener(id, Sent, false)
                               && InAccept(me.broker, id).1 == Some(i)
            case _ => true
  {
    EveryRun(decode, acts, y);
    var me, you := y.Me(first), y.Me(!first);
    match you.wrote[|me.log|] {
      case Open(id) =>
        OpenIsNew(me, you, id);
        NotOwned(me, id);
      case Accept(id) =>
        var i := AcceptIsAwaited(me, you, id);
      case _ =>
    }
  }

  lemma DecodedLast(decode: Decoder, ms: seq<Wire>, m: Wire, id: ChannelId)
    ensures Decoded(decode, ms + [m], id) == Decoded(decode, ms, id) + Adds(decode, m, id)
  {
  }

  lemma {:induction false} DecodedConcat(decode: Decoder, a: seq<Wire>, b: seq<Wire>, id: ChannelId)
    ensures Decoded(decode, a + b, id) == Decoded(decode, a, id) + Decoded(decode, b, id)
    decreases |b|
  {
    if b == [] {
      assert a + b == a;
    } else {
      var front, m := b[..|b| - 1], b[|b| - 1];
      calc {
        Decoded(decode, a + b, id);
        { assert a + b == a + front + [m]; }
        Decoded(decode, a + front + [m], id);
        { DecodedLast(decode, a + front, m, id); }
        Decoded(decode, a + front, id) + Adds(decode, m, id);
        { DecodedConcat(decode, a, front, id); }
        Decoded(decode, a, id) + Decoded(decode, front, id) + Adds(decode, m, id);
        Decoded(decode, a, id) + Decoded(decode, b, id);
      }
    }
  }

  /** In every run, what the reads of a channel have returned and its queue are, in order, the decodable messages for
      this channel that the broker processed since the channel was registered, with nothing from other channels. */
  lemma ChannelIsFifo(decode: Decoder, acts: seq<Action>, y: Pair, first: bool, id: ChannelId)
    requires Reaches(decode, acts, y) && id in y.Me(first).broker.channels
    ensures var me, you := y.Me(first), y.Me(!first);
            && id in me.since && me.since[id] <= |me.log| && me.log <= you.wrote
            && (me.broker.channels[id].delivered + me.broker.channels[id].queue
                == Decoded(decode, me.log[me.since[id]..], id))
  {
    EveryRun(decode, acts, y);
    assert QueueOk(decode, y.Me(first), id);
  }

  lemma LostIff(decode: Decoder, log: seq<Wire>, since: nat, wrote: seq<Wire>, id: ChannelId)
    requires since <= |log| && log <= wrote
    ensures Decoded(decode, log[since..], id) + Decoded(decode, wrote[|log|..], id) == Decoded(decode, wrote, id)
            <==> Decoded(decode, log[..since], id) == []
  {
    var early, late, rest := log[..since], log[since..], wrote[|log|..];
    assert early + late == log && log + rest == wrote;
    DecodedConcat(decode, early, late, id);
    DecodedConcat(decode, log, rest, id);
    EmptyPrefix(Decoded(decode, early, id), Decoded(decode, late, id), Decoded(decode, rest, id));
  }

  lemma EmptyPrefix(a: seq<Content>, b: seq<Content>, c: seq<Content>)
    ensures b + c == a + b + c <==> a == []
  {
  }

  /** Nothing that the other end wrote for a channel is lost exactly if no message for it was processed before the
      channel was registered. */
  lemma NothingLostIff(decode: Decoder, acts: seq<Action>, y: Pair, first: bool, id: ChannelId)
    requires Reaches(decode, acts, y) && id in y.Me(first).broker.channels
    ensures var me, you := y.Me(first), y.Me(!first);
            && id in me.since && me.since[id] <= |me.log| <= |you.wrote|
            && (me.broker.channels[id].delivered + me.broker.channels[id].queue
                + Decoded(decode, you.wrote[|me.log|..], id)
                == Decoded(decode, you.wrote, id)
                <==> Decoded(decode, me.log[..me.since[id]], id) == [])
  {
    ChannelIsFifo(decode, acts, y, first, id);
    LostIff(decode, y.Me(first).log, y.Me(first).since[id], y.Me(!first).wrote, id);
  }

  // ---- nothing is lost once the other end was heard ----

  lemma {:induction false} DecodedFrom(decode: Decoder, ms: seq<Wire>, id: ChannelId)
    ensures Decoded(decode, ms, id) != [] ==> exists k :: 0 <= k < |ms| && ms[k].Data? && ms[k].id == id
  {
    if ms != [] {
      DecodedFrom(decode, ms[..|ms| - 1], id);
    }
  }

  /** A message on a channel shows that the other end has registered it. */
  lemma HeardIsRegistered(decode: Decoder, y: Pair, first: bool, id: ChannelId)
    requires Inv(decode, y) && id in y.Me(first).broker.channels
    requires y.Me(first).broker.channels[id] != Inbox([], [])
    ensures id in y.Me(!first).broker.channels
  {
    var me := y.Me(first);
    assert QueueOk(decode, me, id);
    DecodedFrom(decode, me.log[me.since[id]..], id);
    var k :| 0 <= k < |me.log[me.since[id]..]| && me.log[me.since[id]..][k].Data? && me.log[me.since[id]..][k].id == id;
    assert y.Me(!first).wrote[me.since[id] + k] == me.log[me.since[id]..][k];
  }

  lemma StepGrows(decode: Decoder, y: Pair, a: Action, z: Pair)
    requires Step(decode, y, a, z)
    ensures Grows(y.a, z.a) && Grows(y.b, z.b)
  {
    ActGrows(y.Me(a.first), y.Me(!a.first).wrote, decode, a.act);
  }

  lemma GrowsOn(p: Peer, q: Peer, r: Peer)
    requires Grows(p, q) && Grows(q, r)
    ensures Grows(p, r)
  {
  }

  lemma RunGrows(decode: Decoder, y: Pair, more: seq<Action>, z: Pair)
    requires Runs.Reaches(y, (x, a, x') => Step(decode, x, a, x'), more, z)
    ensures Grows(y.a, z.a) && Grows(y.b, z.b)
  {
    var next := (x, a, x') => Step(decode, x, a, x');
    var inv: (seq<Action>, Pair) -> bool := (_, x: Pair) => Grows(y.a, x.a) && Grows(y.b, x.b);
    forall before, x, a, x' | inv(before, x) && next(x, a, x')
      ensures inv(before + [a], x')
    {
      StepGrows(decode, x, a, x');
      GrowsOn(y.a, x.a, x'.a);
      GrowsOn(y.b, x.b, x'.b);
    }
    Runs.RunInduction(y, next, inv, more, z);
  }

  /** What was written from a place in the log on that lies behind the registration is all there, at the end of what the
      channel has delivered, queued and still to come. */
  lemma AllThere(decode: Decoder, wrote: seq<Wire>, log: seq<Wire>, since: nat, n: nat, id: ChannelId)
    returns (earlier: seq<Content>)
    requires since <= |log| && log <= wrote && since <= n <= |wrote|
    ensures Decoded(decode, log[since..], id) + Decoded(decode, wrote[|log|..], id)
            == earlier + Decoded(decode, wrote[n..], id)
  {
    var a, b, c, d := log[since..], wrote[|log|..], wrote[since..n], wrote[n..];
    assert a + b == c + d by {
      assert log + b == wrote;
      assert a + b == wrote[since..];
    }
    DecodedConcat(decode, a, b, id);
    DecodedConcat(decode, c, d, id);
    earlier := Decoded(decode, c, id);
  }

  /** Once an end has a message on a channel, queued or delivered, nothing that it writes from then on is lost: at every
      later time it is, in order and in full, at the end of what the other end has read, queued and still to process. */
  lemma SafeOnceHeard(decode: Decoder, acts: seq<Action>, y: Pair, more: seq<Action>, z: Pair, first: bool,
                      id: ChannelId)
    returns (earlier: seq<Content>)
    requires Reaches(decode, acts, y) && id in y.Me(first).broker.channels
    requires y.Me(first).broker.channels[id] != Inbox([], [])
    requires Runs.Reaches(y, (x, a, x') => Step(decode, x, a, x'), more, z)
    ensures var me, you, n := z.Me(first), z.Me(!first), |y.Me(first).wrote|;
            && id in you.broker.channels && n <= |me.wrote| && |you.log| <= |me.wrote|
            && (you.broker.channels[id].delivered + you.broker.channels[id].queue
                + Decoded(decode, me.wrote[|you.log|..], id)
                == earlier + Decoded(decode, me.wrote[n..], id))
  {
    var next := (x, a, x') => Step(decode, x, a, x');
    EveryRun(decode, acts, y);
    HeardIsRegistered(decode, y, first, id);
    assert QueueOk(decode, y.Me(!first), id);
    RunGrows(decode, y, more, z);
    Runs.Append(START, next, acts, y, more, z);
    EveryRun(decode, acts + more, z);
    assert QueueOk(decode, z.Me(!first), id);
    earlier := AllThere(decode, z.Me(first).wrote, z.Me(!first).log, z.Me(!first).since[id], |y.Me(first).wrote|, id);
  }
}
