/** Sender and receiver as objects: each call does what the functions of `Transfer` say. */
module Endpoints {
  import opened Blocks
  import opened Transfer
  import opened Storage
  import W = BlockWriter
  import SR = SenderRuns
  import RR = ReceiverRuns

  class Sender {
    const metadata: string
    const reader: Reader
    var state: SenderPhase
    var received: seq<bool>
    var receivedCount: nat

    ghost function View(): SenderState
      reads this, reader, reader.reader.Data
    {
      SenderState(state, metadata, reader.View(), received, receivedCount)
    }

    /** What every call keeps as long as none returns an error. */
    ghost predicate Valid()
      reads this, reader, reader.reader.Data
    {
      reader.Valid() && SR.Inv(View())
    }

    constructor (name: string, source: Reader)
      requires source.Valid() && source.totalSize > 0 && source.nextIndex == 0 && source.redoBlocks == []
      ensures reader == source && Valid()
      ensures View() == NewSender(name, source.View().file, source.blockSize)
    {
      metadata := name;
      reader := source;
      state := Initialized;
      received := seq(BlockCount(source.blockSize, source.totalSize), _ => false);
      receivedCount := 0;
      new;
      SR.NewSenderInv(name, source.View().file, source.blockSize);
    }

    /** The next message. If the source cannot be read, the error is returned and nothing has changed. */
    method WriteMessage() returns (o: Output)
      requires Valid()
      modifies `state, reader`nextIndex, reader`redoBlocks, reader.reader`cursor
      ensures Valid()
      ensures old(state in {InPrologue, InProgress} && !reader.Readable(reader.Head())) ==>
                View() == old(View()) && o == Fail(ReaderFailed(reader.Failure()))
      ensures old(state !in {InPrologue, InProgress} || reader.Readable(reader.Head())) ==>
                (View(), o) == SenderWrite(reader.sum, old(View()))
    {
      SR.WriteKeeps(reader.sum, View());
      match state
      case Initialized =>
        o := Emit(Header(Some(metadata), reader.totalSize, reader.blockSize));
        state := InPrologue;
      case InPrologue =>
        o := NextBlock(InPrologue, NeedAcknowledge);
      case InProgress =>
        o := NextBlock(InProgress, Transferred);
      case Transferred =>
        o := Emit(DataSent);
        state := NeedDataReceived;
      case SendAbort =>
        o := Emit(Abort);
        state := Aborted;
      case _ =>
        o := Fail(NothingToWrite);
    }

    method NextBlock(more: SenderPhase, last: SenderPhase) returns (o: Output)
      requires reader.Valid() && !reader.IsDone()
      modifies `state, reader`nextIndex, reader`redoBlocks, reader.reader`cursor
      ensures reader.Valid()
      ensures old(reader.Readable(reader.Head())) ==> (View(), o) == SendBlock(reader.sum, old(View()), more, last)
      ensures old(!reader.Readable(reader.Head())) ==>
                View() == old(View()) && o == Fail(ReaderFailed(reader.Failure()))
    {
      var b := reader.NextBlock();
      if b.Err? {
        return Fail(ReaderFailed(b.error));
      }
      state := if reader.IsDone() then last else more;
      o := Emit(BlockData(b.value));
    }

    /** One message from the receiver; naming a block that does not exist panics. */
    method ReadMessage(m: Message) returns (o: Output)
      requires Valid() && SenderRead(View(), m).1 != Panic
      modifies `state, `received, `receivedCount, reader`redoBlocks
      ensures (View(), o) == SenderRead(old(View()), m)
      ensures o == Quiet ==> Valid()
    {
      SR.ReadKeeps(View(), m);
      o := Quiet;
      match m
      case Acknowledge =>
        if state == InPrologue {
          state := InProgress;
        } else if state == NeedAcknowledge {
          state := Transferred;
        } else {
          o := Fail(UnexpectedMessage);
        }
      case BlockReceived(i) =>
        if !Acking(state) {
          o := Fail(UnexpectedMessage);
        } else if received[i] {
          o := Fail(DuplicateBlockReceived);
        } else {
          received := received[i := true];
          receivedCount := receivedCount + 1;
        }
      case RedoBlock(i) =>
        if !Acking(state) {
          o := Fail(UnexpectedMessage);
        } else {
          o := Requeue(i);
        }
      case DataReceived =>
        if state != NeedDataReceived {
          o := Fail(UnexpectedMessage);
        } else {
          state := Done;
          if receivedCount < BlockCount(reader.blockSize, reader.totalSize) {
            o := Fail(InvalidDataReceived);
          }
        }
      case Abort =>
        if state in {Done, Aborted} {
          o := Fail(UnexpectedMessage);
        } else {
          state := Aborted;
        }
      case _ =>
        o := Fail(UnexpectedMessage);
    }

    method Requeue(i: nat) returns (o: Output)
      requires reader.Valid() && i < |received| && |received| == BlockCount(reader.blockSize, reader.totalSize)
      modifies `state, reader`redoBlocks
      ensures reader.Valid() && (View(), o) == Redo(old(View()), i)
    {
      state := InProgress;
      if received[i] {
        return Fail(RedoForReceivedBlock);
      }
      if i >= reader.nextIndex {
        return Fail(RedoForUnwrittenBlock);
      }
      NoWrap(reader.blockSize, reader.totalSize, i);
      var q := reader.RedoBlock(i);
      match q
      case Queued => o := Quiet;
      case AlreadyQueued => o := Fail(DuplicateRedoBlock);
      case RedoError(e) => o := Fail(ReaderFailed(e));
    }
  }

  class Receiver {
    const sum: Checksum
    var state: ReceiverPhase
    var writer: Writer?
    var nextBlockIndex: nat
    var lastBlock: Option<Block>
    var redoBlocks: Option<seq<nat>>

    ghost function View(): ReceiverState
      reads this, writer, if writer == null then {} else {writer.writer.Data}
    {
      ReceiverState(state, if writer == null then None else Some(writer.View()), nextBlockIndex, lastBlock, redoBlocks)
    }

    /** What every call keeps as long as none returns an error. */
    ghost predicate Valid()
      reads this, writer, if writer == null then {} else {writer.writer.Data}
    {
      (writer != null ==> writer.Valid() && writer.sum == sum && writer.totalSize <= writer.writer.Data.Length)
      && RR.Inv(View())
    }

    constructor (checksum: Checksum)
      ensures sum == checksum && Valid() && View() == NEW_RECEIVER
    {
      sum := checksum;
      state := Waiting;
      writer := null;
      nextBlockIndex := 0;
      lastBlock := None;
      redoBlocks := None;
    }

    method WriteMessage() returns (o: Output)
      requires Valid()
      modifies `state, `lastBlock, `redoBlocks
      ensures Valid() && (View(), o) == ReceiverWrite(old(View()))
    {
      RR.WriteKeeps(View());
      match state
      case SendAcknowledge =>
        o := Emit(Acknowledge);
        state := NeedBlock;
      case HandleBlock =>
        if lastBlock.Some? {
          o := Emit(BlockReceived(lastBlock.value.index));
          lastBlock := None;
        } else {
          o := Emit(RedoBlock(redoBlocks.value[0]));
          redoBlocks := if |redoBlocks.value| == 1 then None else Some(redoBlocks.value[1..]);
        }
        if redoBlocks.Some? {
          state := HandleBlock;
        } else if writer.IsDone() {
          state := NeedDataSent;
        } else {
          state := NeedBlock;
        }
      case SendDataReceived =>
        o := Emit(DataReceived);
        state := Finished;
      case SendingAbort =>
        o := Emit(Abort);
        state := GivenUp;
      case _ =>
        o := Fail(NothingToWrite);
    }

    /** The storage that the writer factory hands out for this message, if it is asked. */
    ghost function Handed(made: Buffer?): Factory
      reads if made == null then {} else {made.Data}
    {
      var storage := if made == null then None else Some(made.Data[..]);
      (_, _) => storage
    }

    /** A good block meets a storage that is already closed. */
    ghost predicate Refused(b: Block)
      requires writer != null
      reads this, writer, writer.writer, writer.writer.Data
    {
      writer.writer.closed && W.CheckBlock(sum, writer.View(), b) == W.Written
    }

    ghost function Refusal(): (ReceiverState, Output)
      reads this, writer, if writer == null then {} else {writer.writer.Data}
    {
      (View().(phase := HandleBlock), Fail(WriterFailed(W.StorageClosed)))
    }

    /** One message from the sender. `made` is what the writer factory returns, null if it fails. */
    method ReadMessage(m: Message, made: Buffer?) returns (o: Output)
      requires Valid() && !RR.Overruns(View(), m)
      requires m.Header? ==> m.blockSize < TWO_64
      requires m.Header? && made != null ==> made.Data.Length == m.totalSize < TWO_63
      modifies this, writer, if writer == null then {} else {writer.writer, writer.writer.Data}
      ensures (View(), o) == old(if m.BlockData? && state == NeedBlock && Refused(m.block) then Refusal()
                                 else ReceiverRead(sum, Handed(made), View(), m))
      ensures o == Quiet ==> Valid()
    {
      match m
      case Header(_, _, _) =>
        if state != Waiting {
          return Fail(UnexpectedMessage);
        }
        o := Accept(m, made);
      case BlockData(b) =>
        if state != NeedBlock {
          return Fail(UnexpectedMessage);
        }
        o := Take(b);
      case DataSent =>
        if state != NeedDataSent {
          return Fail(UnexpectedMessage);
        }
        state := SendDataReceived;
        o := Quiet;
      case _ =>
        o := Fail(UnexpectedMessage);
    }

    method Accept(m: Message, made: Buffer?) returns (o: Output)
      requires Valid() && state == Waiting && m.Header? && m.blockSize < TWO_64
      requires made != null ==> made.Data.Length == m.totalSize < TWO_63
      modifies this
      ensures (View(), o) == old(AcceptHeader(Handed(made), View(), m))
      ensures o == Quiet ==> Valid()
    {
      state := SendAcknowledge;
      if m.metadata.None? {
        return Fail(MissingMetadata);
      }
      if m.blockSize == 0 {
        return Fail(ZeroBlockSize);
      }
      if made == null {
        return Fail(FactoryFailed);
      }
      assert Extent(made.Data[..], m.totalSize) == made.Data[..];
      writer := new Writer(made, m.totalSize, m.blockSize, sum);
      o := Quiet;
    }

    static method Missing(from: nat, to: nat) returns (missing: seq<nat>)
      requires from <= to
      ensures missing == Gap(from, to)
    {
      missing := [];
      for i := from to to
        invariant missing == Gap(from, i)
      {
        missing := missing + [i];
      }
    }

    /** Writes a block, or asks for it and for everything before it that is missing. */
    method Take(b: Block) returns (o: Output)
      requires Valid() && state == NeedBlock && !RR.Overruns(View(), BlockData(b))
      modifies this, writer, writer.writer, writer.writer.Data
      ensures writer == old(writer)
      ensures (View(), o) == old(if Refused(b) then Refusal() else AcceptBlock(sum, View(), b))
      ensures o == Quiet ==> Valid()
    {
      RR.BlockKeeps(sum, View(), b);
      W.PanicIff(sum, writer.View(), b);
      var status := writer.WriteBlock(b);
      state := HandleBlock;
      if status == W.BadBlockChecksum {
        redoBlocks := Some([b.index]);
        return Quiet;
      }
      if status != W.Written {
        return Fail(WriterFailed(status));
      }
      if b.index > nextBlockIndex {
        var missing := Missing(nextBlockIndex, b.index);
        redoBlocks := Some(missing);
      } else {
        nextBlockIndex := nextBlockIndex + 1;
      }
      lastBlock := Some(b);
      o := Quiet;
    }
  }
}
