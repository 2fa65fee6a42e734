/** The receiver alone, against any peer: what every run keeps. */
module ReceiverRuns {
  import opened Blocks
  import opened Counting
  import opened Transfer
  import R = BlockReader
  import W = BlockWriter

  ghost predicate WriterInv(r: ReceiverState) {
    r.writer.Some? &&
    var w := r.writer.value;
    && w.Valid()
    && r.next <= w.Count()
    && (forall i :: 0 <= i < r.next ==> w.written[i])
    && (r.last.Some? ==> r.last.value.index < w.Count() && w.written[r.last.value.index])
    && (r.redo.Some? ==> r.redo.value != [] && forall k :: 0 <= k < |r.redo.value| ==> r.redo.value[k] < w.Count())
  }

  ghost predicate Inv(r: ReceiverState) {
    && (r.phase != Waiting ==> WriterInv(r))
    && (r.phase == Waiting ==> r == NEW_RECEIVER)
    && (r.phase == HandleBlock ==> r.last.Some? || r.redo.Some?)
    && (r.phase != HandleBlock ==> r.last.None? && r.redo.None?)
    && (r.phase == SendAcknowledge ==> r.next == 0 && r.writer.value.count == 0)
    && (r.phase == NeedBlock && r.writer.value.out != [] ==> !r.writer.value.IsDone())
    && (r.phase in {NeedDataSent, SendDataReceived, Finished} ==> r.writer.value.IsDone())
  }

  /** A block past the last one whose offset wraps back into the file, with data of the length expected there. */
  predicate Overruns(r: ReceiverState, m: Message) {
    r.phase == NeedBlock && m.BlockData? && r.writer.Some? && r.writer.value.blockSize > 0 &&
    var w, i := r.writer.value, m.block.index;
    && i >= w.Count() && Offset(w.blockSize, i) < |w.out|
    && |m.block.data| == Amount(w.blockSize, Offset(w.blockSize, i), |w.out|)
  }

  /** The numbers of a message are 64-bit words. */
  predicate Words(m: Message) {
    m.Header? ==> m.blockSize < TWO_64
  }

  /** A writable phase always has a message, in particular `HandleBlock`. */
  lemma WriteKeeps(r: ReceiverState)
    requires Inv(r)
    ensures var (r', o) := ReceiverWrite(r);
            && Inv(r') && r'.writer == r.writer && r'.next == r.next
            && (o.Emit? <==> ReceiverCanWrite(r.phase))
            && (!o.Emit? ==> r' == r && o == Fail(NothingToWrite))
  {
    if r.phase == SendAcknowledge && r.writer.value.out != [] {
      CountBounds(r.writer.value.blockSize, |r.writer.value.out|);
    }
    if r.phase == HandleBlock && r.last.None? {
      assert r.redo.value != [];
    }
  }

  lemma HeaderKeeps(factory: Factory, r: ReceiverState, m: Message)
    requires Inv(r) && Honest(factory) && m.Header? && m.blockSize < TWO_64 && r.phase == Waiting
    ensures var (r', o) := AcceptHeader(factory, r, m);
            && (o == Quiet ==> Inv(r') && r'.phase == SendAcknowledge && r'.writer.value.blockSize == m.blockSize)
            && o != Panic && !o.Emit?
  {
    var (r', o) := AcceptHeader(factory, r, m);
    if o == Quiet {
      W.NewWriterValid(factory(m.metadata.value, m.totalSize).value, m.blockSize);
    }
  }

  /** The "block already written" panic is dead: everything below `next` is written, and the writer says so first.
      What is left is the overrun of the writer's flags. */
  lemma BlockKeeps(sum: Checksum, r: ReceiverState, b: Block)
    requires Inv(r) && r.phase == NeedBlock
    ensures var (r', o) := AcceptBlock(sum, r, b);
            && (o == Quiet ==> Inv(r') && r'.phase == HandleBlock)
            && (o == Panic <==> Overruns(r, BlockData(b))) && !o.Emit?
            && (o == Quiet ==> r'.writer == Some(W.WriteBlock(sum, r.writer.value, b).0))
  {
    W.WriteEffect(sum, r.writer.value, b);
    W.PanicIff(sum, r.writer.value, b);
  }

  /** One read: a panic exactly if the flags are overrun, and an accepted message keeps the invariant. */
  lemma ReadKeeps(sum: Checksum, factory: Factory, r: ReceiverState, m: Message)
    requires Inv(r) && Honest(factory) && Words(m)
    ensures var (r', o) := ReceiverRead(sum, factory, r, m);
            && (o == Quiet ==> Inv(r'))
            && (o == Panic <==> Overruns(r, m)) && !o.Emit?
  {
    if m.Header? && r.phase == Waiting { HeaderKeeps(factory, r, m); }
    if m.BlockData? && r.phase == NeedBlock { BlockKeeps(sum, r, m.block); }
  }

  /** Between messages, `DataSent` is accepted exactly when no block is missing. */
  lemma DataSentIff(sum: Checksum, factory: Factory, r: ReceiverState)
    requires Inv(r) && r.phase in {NeedBlock, NeedDataSent}
    requires r.writer.value.out != []
    ensures ReceiverRead(sum, factory, r, DataSent).1 == Quiet <==> r.writer.value.IsDone()
    ensures var o := ReceiverRead(sum, factory, r, DataSent).1; o != Quiet ==> o == Fail(UnexpectedMessage)
  {
  }

  // ---- runs ----

  datatype Event = DoWrite | DoRead(message: Message)

  /** `accepted` collects the blocks that were written, `storage` is what the factory handed out. */
  datatype Run =
    Run(state: ReceiverState, outputs: seq<Output>, running: bool, accepted: seq<Block>, storage: seq<byte>)

  function Step(sum: Checksum, factory: Factory, e: Run, ev: Event): Run {
    if !e.running then e
    else
      match ev
      case DoWrite =>
        var (r, o) := ReceiverWrite(e.state);
        e.(state := r, outputs := e.outputs + [o], running := o.Emit?)
      case DoRead(m) =>
        var (r, o) := ReceiverRead(sum, factory, e.state, m);
        var e' := e.(state := r, outputs := e.outputs + [o], running := o == Quiet);
        if o != Quiet then e'
        else if m.Header? then e'.(storage := r.writer.value.out)
        else if m.BlockData? && r.last == Some(m.block) then e'.(accepted := e.accepted + [m.block])
        else e'
  }

  function Events(sum: Checksum, factory: Factory, evs: seq<Event>): Run {
    if evs == [] then Run(NEW_RECEIVER, [], true, [], [])
    else Step(sum, factory, Events(sum, factory, evs[..|evs| - 1]), evs[|evs| - 1])
  }

  ghost predicate AllWords(evs: seq<Event>) {
    forall k :: 0 <= k < |evs| && evs[k].DoRead? ==> Words(evs[k].message)
  }

  /** Event `k` is a message that overruns the flags, and the run has come so far. */
  ghost predicate OverrunAt(sum: Checksum, factory: Factory, evs: seq<Event>, k: nat)
    requires k < |evs|
  {
    var e := Events(sum, factory, evs[..k]);
    e.running && evs[k].DoRead? && Overruns(e.state, evs[k].message)
  }

  /** The invariant while no error has been returned; the writer accounts for exactly the accepted blocks. */
  ghost predicate Safe(sum: Checksum, e: Run) {
    e.running ==>
      && Inv(e.state)
      && (e.state.writer.Some? ==> W.Accounted(sum, e.storage, W.WriterRun(e.state.writer.value, e.accepted)))
      && (e.state.writer.None? ==> e.accepted == [])
  }

  lemma HeaderAccounted(sum: Checksum, storage: seq<byte>, bs: nat)
    requires Sized(bs, |storage|)
    ensures W.Accounted(sum, storage, W.WriterRun(W.NewWriter(storage, bs), []))
  {
    W.RunAccounted(sum, storage, bs, []);
  }

  lemma BlockStepSafe(sum: Checksum, factory: Factory, e: Run, b: Block)
    requires Safe(sum, e) && e.running && Honest(factory)
    ensures Safe(sum, Step(sum, factory, e, DoRead(BlockData(b))))
  {
    ReadKeeps(sum, factory, e.state, BlockData(b));
    if e.state.phase == NeedBlock {
      var w := W.WriterRun(e.state.writer.value, e.accepted);
      W.WriteAccounted(sum, e.storage, w, b);
      BlockKeeps(sum, e.state, b);
    }
  }

  lemma OtherStepSafe(sum: Checksum, factory: Factory, e: Run, m: Message)
    requires Safe(sum, e) && e.running && Honest(factory) && !m.BlockData? && Words(m)
    ensures Safe(sum, Step(sum, factory, e, DoRead(m)))
  {
    ReadKeeps(sum, factory, e.state, m);
    if ReceiverRead(sum, factory, e.state, m).1 == Quiet && m.Header? {
      HeaderAccounted(sum, factory(m.metadata.value, m.totalSize).value, m.blockSize);
    }
  }

  /** One event: it keeps what holds so far, and panics exactly if it overruns the flags. */
  lemma StepSafe(sum: Checksum, factory: Factory, e: Run, ev: Event)
    requires Safe(sum, e) && Honest(factory) && (ev.DoRead? ==> Words(ev.message))
    ensures Safe(sum, Step(sum, factory, e, ev))
    ensures Panic in Step(sum, factory, e, ev).outputs <==>
              Panic in e.outputs || (e.running && ev.DoRead? && Overruns(e.state, ev.message))
  {
    if e.running {
      if ev.DoWrite? {
        WriteKeeps(e.state);
      } else {
        ReadKeeps(sum, factory, e.state, ev.message);
        if ev.message.BlockData? {
          BlockStepSafe(sum, factory, e, ev.message.block);
        } else {
          OtherStepSafe(sum, factory, e, ev.message);
        }
      }
    }
  }

  /** Against any message sequence, in every run: there is a panic exactly if a message overruns the flags, and while no
      error has been returned the invariant holds and the writer accounts for exactly the accepted blocks. */
  lemma {:induction false} AnySender(sum: Checksum, factory: Factory, evs: seq<Event>)
    requires Honest(factory) && AllWords(evs)
    ensures Safe(sum, Events(sum, factory, evs))
    ensures Panic in Events(sum, factory, evs).outputs <==>
              exists k: nat :: k < |evs| && OverrunAt(sum, factory, evs, k)
  {
    if evs != [] {
      var n := |evs| - 1;
      AnySender(sum, factory, evs[..n]);
      StepSafe(sum, factory, Events(sum, factory, evs[..n]), evs[n]);
      forall k: nat | k < n
        ensures OverrunAt(sum, factory, evs, k) == OverrunAt(sum, factory, evs[..n], k)
      {
        assert evs[..n][..k] == evs[..k];
      }
      assert OverrunAt(sum, factory, evs, n) <==>
               var e := Events(sum, factory, evs[..n]);
               e.running && evs[n].DoRead? && Overruns(e.state, evs[n].message);
    }
  }

  /** Every block was written exactly once, from an accepted message with a matching checksum. */
  ghost predicate WroteAll(sum: Checksum, w: W.WriterState, accepted: seq<Block>)
    requires w.blockSize > 0
  {
    && |accepted| == w.Count()
    && (forall i :: 0 <= i < w.Count() ==> Occurs(R.Indices(accepted), i) == 1)
    && (forall k :: 0 <= k < |accepted| ==> W.Proper(sum, w, accepted[k]))
  }

  lemma DoneWroteAll(sum: Checksum, storage: seq<byte>, e: W.WriterRun)
    requires W.Accounted(sum, storage, e) && e.state.IsDone()
    ensures WroteAll(sum, e.state, e.accepted)
  {
    W.DoneIff(e.state);
  }

  lemma FinishedWroteAll(sum: Checksum, factory: Factory, evs: seq<Event>)
    requires Honest(factory) && AllWords(evs)
    requires Events(sum, factory, evs).running && Events(sum, factory, evs).state.phase == Finished
    ensures var e := Events(sum, factory, evs);
            && e.state.writer.Some? && e.state.writer.value.blockSize > 0
            && WroteAll(sum, e.state.writer.value, e.accepted)
  {
    AnySender(sum, factory, evs);
    var e := Events(sum, factory, evs);
    DoneWroteAll(sum, e.storage, W.WriterRun(e.state.writer.value, e.accepted));
  }

  /** `DataSent` behind a corrupted block ends the run, although the receiver has just asked for the block again. */
  lemma HastyDataSent(sum: Checksum, factory: Factory, d: byte)
    requires factory("", 1) == Some([d])
    ensures var bad := Block(0, [d], sum(0, [d]) + [0]);
            var evs := [DoRead(Header(Some(""), 1, 1)), DoWrite, DoRead(BlockData(bad)), DoWrite, DoRead(DataSent)];
            Events(sum, factory, evs).outputs
            == [Quiet, Emit(Acknowledge), Quiet, Emit(RedoBlock(0)), Fail(UnexpectedMessage)]
  {
    var bad := Block(0, [d], sum(0, [d]) + [0]);
    var evs := [DoRead(Header(Some(""), 1, 1)), DoWrite, DoRead(BlockData(bad)), DoWrite, DoRead(DataSent)];
    var e0 := Events(sum, factory, []);
    var e1 := Step(sum, factory, e0, evs[0]);
    assert [false] == seq(1, _ => false);
    assert e1.state == ReceiverState(SendAcknowledge, Some(W.WriterState([d], 1, [false], 0)), 0, None, None);
    var e2 := Step(sum, factory, e1, DoWrite);
    var e3 := Step(sum, factory, e2, evs[2]);
    assert e3.state == e2.state.(phase := HandleBlock, redo := Some([0]));
    var e4 := Step(sum, factory, e3, DoWrite);
    assert evs[..1][..0] == [] && Events(sum, factory, evs[..1]) == e1;
    assert evs[..2][..1] == evs[..1] && Events(sum, factory, evs[..2]) == e2;
    assert evs[..3][..2] == evs[..2] && Events(sum, factory, evs[..3]) == e3;
    assert evs[..4][..3] == evs[..3] && Events(sum, factory, evs[..4]) == e4;
    assert Events(sum, factory, evs) == Step(sum, factory, e4, DoRead(DataSent));
  }
}
