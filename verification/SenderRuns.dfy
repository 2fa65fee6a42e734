/** The sender alone, against any peer: what every run keeps, and when it panics. */
module SenderRuns {
  import opened Blocks
  import opened Counting
  import opened Transfer
  import R = BlockReader

  ghost predicate Inv(s: SenderState) {
    && s.reader.Valid() && s.reader.file != []
    && |s.received| == s.reader.Count()
    && s.count == CountTrue(s.received)
    && (s.phase == Initialized ==> s.reader.next == 0 && s.reader.redo == [])
    && (s.phase in {Initialized, InPrologue, InProgress} ==> !s.reader.IsDone())
    && (s.phase in {NeedAcknowledge, Transferred, NeedDataReceived, Done} ==> s.reader.IsDone())
    && (s.phase == Done ==> forall i :: 0 <= i < |s.received| ==> s.received[i])
  }

  predicate SameFile(s: SenderState, s': SenderState) {
    s'.reader.file == s.reader.file && s'.reader.blockSize == s.reader.blockSize
  }

  /** The index a message names, if it names one. */
  predicate InRange(m: Message, n: nat) {
    (m.BlockReceived? || m.RedoBlock?) ==> m.index < n
  }

  lemma NewSenderInv(metadata: string, file: seq<byte>, bs: nat)
    requires Sized(bs, |file|) && file != []
    ensures Inv(NewSender(metadata, file, bs))
  {
    var s := NewSender(metadata, file, bs);
    CountFull(s.received);
    CountBounds(bs, |file|);
    R.DoneIff(s.reader);
  }

  lemma SendBlockKeeps(sum: Checksum, s: SenderState, more: SenderPhase, last: SenderPhase)
    requires Inv(s)
    requires (s.phase, more, last) in {(InPrologue, InPrologue, NeedAcknowledge), (InProgress, InProgress, Transferred)}
    ensures var (s', o) := SendBlock(sum, s, more, last);
            Inv(s') && o.Emit? && SameFile(s, s')
  {
    R.NextServesHead(sum, s.reader);
    R.DoneIff(s.reader);
  }

  /** A writable phase always has a message: the "no data" panics are dead. */
  lemma WriteKeeps(sum: Checksum, s: SenderState)
    requires Inv(s)
    ensures var (s', o) := SenderWrite(sum, s);
            && Inv(s') && o != Panic
            && (o.Emit? <==> SenderCanWrite(s.phase))
            && (!o.Emit? ==> s' == s && o == Fail(NothingToWrite))
            && SameFile(s, s')
  {
    if s.phase == InPrologue {
      SendBlockKeeps(sum, s, InPrologue, NeedAcknowledge);
    } else if s.phase == InProgress {
      SendBlockKeeps(sum, s, InProgress, Transferred);
    }
  }

  /** A read panics exactly on an index past the last block; an accepted message keeps the invariant. */
  lemma ReadKeeps(s: SenderState, m: Message)
    requires Inv(s)
    ensures var (s', o) := SenderRead(s, m);
            && (o == Panic <==> Acking(s.phase) && !InRange(m, s.reader.Count()))
            && (o == Quiet ==> Inv(s'))
            && !o.Emit? && SameFile(s, s')
  {
    CountFull(s.received);
    if m.BlockReceived? && m.index < |s.received| && !s.received[m.index] {
      CountSet(s.received, m.index);
      CountFull(s.received[m.index := true]);
    }
    if m.RedoBlock? && m.index < s.reader.next {
      NoWrap(s.reader.blockSize, |s.reader.file|, m.index);
      R.RedoQueuesOnce(s.reader, m.index);
    }
  }

  // ---- runs ----

  datatype Event = DoWrite | DoRead(message: Message)

  /** The state after the events, the outputs so far, and whether the run still goes on: the loop returns at the
      first error, so nothing happens after it. */
  datatype Run = Run(state: SenderState, outputs: seq<Output>, running: bool)

  function Step(sum: Checksum, e: Run, ev: Event): Run
    requires e.state.reader.blockSize > 0
  {
    if !e.running then e
    else
      var (s, o) := match ev case DoWrite => SenderWrite(sum, e.state) case DoRead(m) => SenderRead(e.state, m);
      Run(s, e.outputs + [o], o.Emit? || o.Quiet?)
  }

  function Events(sum: Checksum, s: SenderState, evs: seq<Event>): (e: Run)
    requires s.reader.blockSize > 0
    ensures e.state.reader.blockSize == s.reader.blockSize
  {
    if evs == [] then Run(s, [], true)
    else Step(sum, Events(sum, s, evs[..|evs| - 1]), evs[|evs| - 1])
  }

  ghost predicate Safe(file: seq<byte>, e: Run) {
    Panic !in e.outputs && (e.running ==> Inv(e.state) && e.state.reader.file == file)
  }

  lemma StepSafe(sum: Checksum, file: seq<byte>, e: Run, ev: Event)
    requires e.state.reader.blockSize > 0 && Safe(file, e)
    requires ev.DoRead? ==> InRange(ev.message, BlockCount(e.state.reader.blockSize, |file|))
    ensures Safe(file, Step(sum, e, ev))
  {
    if e.running {
      match ev
      case DoWrite => WriteKeeps(sum, e.state);
      case DoRead(m) => ReadKeeps(e.state, m);
    }
  }

  /** Against any receiver that only names existing blocks: no panic in any run; while no error has been returned
      the invariant holds, so `count` is the number of acknowledged blocks, the reader has data exactly in the
      sending phases, and `Done` means that every block is acknowledged. */
  lemma {:induction false} AnyReceiver(sum: Checksum, metadata: string, file: seq<byte>, bs: nat, evs: seq<Event>)
    requires Sized(bs, |file|) && file != []
    requires forall k :: 0 <= k < |evs| && evs[k].DoRead? ==> InRange(evs[k].message, BlockCount(bs, |file|))
    ensures Safe(file, Events(sum, NewSender(metadata, file, bs), evs))
  {
    if evs == [] {
      NewSenderInv(metadata, file, bs);
    } else {
      var n := |evs| - 1;
      AnyReceiver(sum, metadata, file, bs, evs[..n]);
      StepSafe(sum, file, Events(sum, NewSender(metadata, file, bs), evs[..n]), evs[n]);
    }
  }

  /** An index past the last block does reach the panic. */
  lemma PanicReached(sum: Checksum, d: byte)
    ensures var es := [DoWrite, DoRead(Acknowledge), DoRead(BlockReceived(2))];
            Panic in Events(sum, NewSender("", [d, d], 1), es).outputs
  {
    var s := NewSender("", [d, d], 1);
    var e0 := Events(sum, s, []);
    var e1 := Step(sum, e0, DoWrite);
    var e2 := Step(sum, e1, DoRead(Acknowledge));
    var e3 := Step(sum, e2, DoRead(BlockReceived(2)));
    assert e3.outputs[2] == Panic;
    var evs := [DoWrite, DoRead(Acknowledge), DoRead(BlockReceived(2))];
    assert evs[..2][..1][..0] == [] && evs[..2][..1] == [DoWrite];
    assert Events(sum, s, evs[..2][..1]) == e1;
    assert Events(sum, s, evs[..2]) == e2;
    assert Events(sum, s, evs) == e3;
  }
}
