/** The two ends of a transfer as functions from a state and an input to a state and an output.
    The classes `Sender` and `Receiver` are proved to do what these functions say. */
module Transfer {
  import opened Blocks
  import R = BlockReader
  import W = BlockWriter

  datatype Message =
    | Header(metadata: Option<string>, totalSize: nat, blockSize: nat)
    | Acknowledge
    | BlockData(block: Block)
    | BlockReceived(index: nat)
    | RedoBlock(index: nat)
    | DataSent
    | DataReceived
    | Abort

  datatype TransferError =
    | NothingToWrite
    | UnexpectedMessage
    | DuplicateBlockReceived
    | RedoForUnwrittenBlock
    | RedoForReceivedBlock
    | DuplicateRedoBlock
    | InvalidDataReceived
    | MissingMetadata
    | ZeroBlockSize
    | FactoryFailed
    | ReaderFailed(readerError: R.ReaderError)
    | WriterFailed(status: W.WriteStatus)

  /** What one call of `WriteMessage` or `ReadMessage` gives back. */
  datatype Output =
    | Emit(message: Message)
    | Quiet
    | Fail(error: TransferError)
    | Panic

  // ---- sender ----

  datatype SenderPhase =
    | Initialized | InPrologue | InProgress | NeedAcknowledge | Transferred | NeedDataReceived
    | Done | SendAbort | Aborted

  datatype SenderState = SenderState(
    phase: SenderPhase, metadata: string, reader: R.ReaderState, received: seq<bool>, count: nat)

  function NewSender(metadata: string, file: seq<byte>, bs: nat): SenderState
    requires bs > 0
  {
    SenderState(Initialized, metadata, R.ReaderState(file, bs, 0, []),
                seq(BlockCount(bs, |file|), _ => false), 0)
  }

  predicate SenderCanWrite(p: SenderPhase) {
    p in {Initialized, InPrologue, InProgress, Transferred, SendAbort}
  }

  /** Sends the next block; the phase afterwards depends on whether it was the last one pending. */
  function SendBlock(sum: Checksum, s: SenderState, more: SenderPhase, last: SenderPhase): (SenderState, Output) {
    if s.reader.IsDone() then (s, Panic)
    else
      var (r, b) := R.NextBlock(sum, s.reader);
      if b.None? then (s, Fail(ReaderFailed(R.EndOfFile)))
      else (s.(reader := r, phase := if r.IsDone() then last else more), Emit(BlockData(b.value)))
  }

  function SenderWrite(sum: Checksum, s: SenderState): (SenderState, Output) {
    match s.phase
    case Initialized => (s.(phase := InPrologue), Emit(Header(Some(s.metadata), |s.reader.file|, s.reader.blockSize)))
    case InPrologue => SendBlock(sum, s, InPrologue, NeedAcknowledge)
    case InProgress => SendBlock(sum, s, InProgress, Transferred)
    case Transferred => (s.(phase := NeedDataReceived), Emit(DataSent))
    case SendAbort => (s.(phase := Aborted), Emit(Abort))
    case _ => (s, Fail(NothingToWrite))
  }

  predicate Acking(p: SenderPhase) {
    p in {InProgress, Transferred, NeedDataReceived}
  }

  function Acked(s: SenderState, i: nat): (SenderState, Output)
    requires s.reader.blockSize > 0
  {
    if i >= |s.received| then (s, Panic)
    else if s.received[i] then (s, Fail(DuplicateBlockReceived))
    else
      (s.(received := s.received[i := true], count := s.count + 1),
       if s.count + 1 > s.reader.Count() then Panic else Quiet)
  }

  function Redo(s: SenderState, i: nat): (SenderState, Output) {
    var to := s.(phase := InProgress);
    if i >= |s.received| then (s, Panic)
    else if s.received[i] then (to, Fail(RedoForReceivedBlock))
    else if i >= s.reader.next then (to, Fail(RedoForUnwrittenBlock))
    else
      var (r, q) := R.RedoBlock(s.reader, i);
      match q
      case Queued => (to.(reader := r), Quiet)
      case AlreadyQueued => (to, Fail(DuplicateRedoBlock))
      case RedoError(e) => (to, Fail(ReaderFailed(e)))
  }

  function SenderRead(s: SenderState, m: Message): (SenderState, Output)
    requires s.reader.blockSize > 0
  {
    match m
    case Acknowledge =>
      if s.phase == InPrologue then (s.(phase := InProgress), Quiet)
      else if s.phase == NeedAcknowledge then (s.(phase := Transferred), Quiet)
      else (s, Fail(UnexpectedMessage))
    case BlockReceived(i) =>
      if Acking(s.phase) then Acked(s, i) else (s, Fail(UnexpectedMessage))
    case RedoBlock(i) =>
      if Acking(s.phase) then Redo(s, i) else (s, Fail(UnexpectedMessage))
    case DataReceived =>
      if s.phase == NeedDataReceived then
        (s.(phase := Done), if s.count < s.reader.Count() then Fail(InvalidDataReceived) else Quiet)
      else (s, Fail(UnexpectedMessage))
    case Abort =>
      if s.phase in {Done, Aborted} then (s, Fail(UnexpectedMessage)) else (s.(phase := Aborted), Quiet)
    case _ => (s, Fail(UnexpectedMessage))
  }

  // ---- receiver ----

  datatype ReceiverPhase =
    | Waiting | SendAcknowledge | NeedBlock | HandleBlock | NeedDataSent | SendDataReceived
    | Finished | SendingAbort | GivenUp

  /** `redo` is `None` for the source's nil slice. */
  datatype ReceiverState = ReceiverState(
    phase: ReceiverPhase, writer: Option<W.WriterState>, next: nat, last: Option<Block>, redo: Option<seq<nat>>)

  /** The storage a writer factory hands out for a file name and a size, if it does. */
  type Factory = (string, nat) -> Option<seq<byte>>

  ghost predicate Honest(factory: Factory) {
    forall name: string, size: nat :: factory(name, size).Some? ==> |factory(name, size).value| == size < TWO_63
  }

  const NEW_RECEIVER := ReceiverState(Waiting, None, 0, None, None)

  predicate ReceiverCanWrite(p: ReceiverPhase) {
    p in {SendAcknowledge, HandleBlock, SendDataReceived, SendingAbort}
  }

  /** The phase after a message about a block has been written. */
  function AfterReply(r: ReceiverState): ReceiverState
    requires r.writer.Some? && r.writer.value.blockSize > 0
  {
    r.(phase := if r.redo.Some? then HandleBlock
                else if r.writer.value.IsDone() then NeedDataSent else NeedBlock)
  }

  function Reply(r: ReceiverState): (ReceiverState, Output) {
    if r.writer.None? || r.writer.value.blockSize == 0 then (r, Panic)
    else if r.last.Some? then
      (AfterReply(r.(last := None)), Emit(BlockReceived(r.last.value.index)))
    else if r.redo.None? || r.redo.value == [] then (r, Panic)
    else
      var rest := r.redo.value[1..];
      (AfterReply(r.(redo := if rest == [] then None else Some(rest))), Emit(RedoBlock(r.redo.value[0])))
  }

  function ReceiverWrite(r: ReceiverState): (ReceiverState, Output) {
    match r.phase
    case SendAcknowledge => (r.(phase := NeedBlock), Emit(Acknowledge))
    case HandleBlock => Reply(r)
    case SendDataReceived => (r.(phase := Finished), Emit(DataReceived))
    case SendingAbort => (r.(phase := GivenUp), Emit(Abort))
    case _ => (r, Fail(NothingToWrite))
  }

  function AcceptHeader(factory: Factory, r: ReceiverState, m: Message): (ReceiverState, Output)
    requires m.Header?
  {
    var to := r.(phase := SendAcknowledge);
    if m.metadata.None? then (to, Fail(MissingMetadata))
    else if m.blockSize == 0 then (to, Fail(ZeroBlockSize))
    else
      var storage := factory(m.metadata.value, m.totalSize);
      if storage.None? then (to, Fail(FactoryFailed))
      else (to.(writer := Some(W.NewWriter(storage.value, m.blockSize))), Quiet)
  }

  /** The indices from `lo` up to but not including `hi`. */
  function Gap(lo: nat, hi: nat): (g: seq<nat>)
    requires lo <= hi
    ensures |g| == hi - lo && forall k :: 0 <= k < |g| ==> g[k] == lo + k
  {
    seq(hi - lo, k => lo + k)
  }

  function AcceptBlock(sum: Checksum, r: ReceiverState, b: Block): (ReceiverState, Output) {
    if r.writer.None? then (r, Panic)
    else
      var (w, status) := W.WriteBlock(sum, r.writer.value, b);
      var to := r.(phase := HandleBlock, writer := Some(w));
      match status
      case IndexPanic => (r, Panic)
      case BadBlockChecksum => (to.(redo := Some([b.index])), Quiet)
      case Written =>
        if b.index > r.next then (to.(redo := Some(Gap(r.next, b.index)), last := Some(b)), Quiet)
        else if b.index < r.next then (r, Panic)
        else (to.(next := r.next + 1, last := Some(b)), Quiet)
      case _ => (to, Fail(WriterFailed(status)))
  }

  function ReceiverRead(sum: Checksum, factory: Factory, r: ReceiverState, m: Message): (ReceiverState, Output) {
    match m
    case Header(_, _, _) => if r.phase == Waiting then AcceptHeader(factory, r, m) else (r, Fail(UnexpectedMessage))
    case BlockData(b) => if r.phase == NeedBlock then AcceptBlock(sum, r, b) else (r, Fail(UnexpectedMessage))
    case DataSent =>
      if r.phase == NeedDataSent then (r.(phase := SendDataReceived), Quiet) else (r, Fail(UnexpectedMessage))
    case _ => (r, Fail(UnexpectedMessage))
  }
}
