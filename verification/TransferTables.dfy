/** The transition tables of the sender and the receiver, and what they mean. */
module TransferTables {
  import opened Blocks
  import opened Transfer
  import A = Automaton
  import C = Client
  import R = BlockReader
  import W = BlockWriter

  const INITIALIZED: A.State := 1
  const DONE: A.State := 2
  const SEND_ABORT: A.State := 3
  const ABORTED: A.State := 4
  const IN_PROLOGUE: A.State := 5
  const IN_PROGRESS: A.State := 6
  const NEED_ACKNOWLEDGE: A.State := 7
  const TRANSFERRED: A.State := 8
  const NEED_DATA_RECEIVED: A.State := 9
  const SEND_ACKNOWLEDGE: A.State := 5
  const NEED_BLOCK: A.State := 6
  const HANDLE_BLOCK: A.State := 7
  const NEED_DATA_SENT: A.State := 8
  const SEND_DATA_RECEIVED: A.State := 9

  /** The type of a message, the key of the read tables. */
  function Kind(m: Message): nat {
    match m
    case Header(_, _, _) => 2
    case Acknowledge => 3
    case BlockData(_) => 4
    case BlockReceived(_) => 5
    case RedoBlock(_) => 6
    case DataSent => 7
    case DataReceived => 8
    case Abort => 9
  }

  type Row<!D, !I> = A.Transition<D, I, Output>

  function ToDo<D, I>(to: A.State, handler: A.Handler<D, I, Output>): Row<D, I> {
    A.Transition(None, None, to, Some(handler))
  }

  function OkDo<D, I>(ok: seq<A.State>, handler: A.Handler<D, I, Output>): Row<D, I> {
    A.Transition(None, Some(ok), A.NO_STATE, Some(handler))
  }

  function AtTo<D, I>(at: seq<A.State>, to: A.State): Row<D, I> {
    A.Transition(Some(at), None, to, None)
  }

  function AtToDo<D, I>(at: seq<A.State>, to: A.State, handler: A.Handler<D, I, Output>): Row<D, I> {
    A.Transition(Some(at), None, to, Some(handler))
  }

  function Says<D>(data: D, m: Message): A.Effect<D, Output> {
    A.Effect(data, [], Some(Emit(m)), false)
  }

  function Fails<D>(data: D, e: TransferError): A.Effect<D, Output> {
    A.Effect(data, [], Some(Fail(e)), true)
  }

  function Agrees<D>(data: D): A.Effect<D, Output> {
    A.Effect(data, [], Some(Quiet), false)
  }

  function Panics<D>(data: D): A.Effect<D, Output> {
    A.Effect(data, [A.Crash], Some(Panic), false)
  }

  // ---- sender ----

  /** The fields of a sender besides its state. */
  datatype SenderData = SenderData(metadata: string, reader: R.ReaderState, received: seq<bool>, count: nat)

  function SenderCode(p: SenderPhase): A.State {
    match p
    case Initialized => INITIALIZED
    case InPrologue => IN_PROLOGUE
    case InProgress => IN_PROGRESS
    case NeedAcknowledge => NEED_ACKNOWLEDGE
    case Transferred => TRANSFERRED
    case NeedDataReceived => NEED_DATA_RECEIVED
    case Done => DONE
    case SendAbort => SEND_ABORT
    case Aborted => ABORTED
  }

  function SenderFields(s: SenderState): SenderData {
    SenderData(s.metadata, s.reader, s.received, s.count)
  }

  function WriteNext(sum: Checksum, d: SenderData, more: A.State, last: A.State): A.Effect<SenderData, Output> {
    if d.reader.IsDone() then Panics(d)
    else
      var (r, b) := R.NextBlock(sum, d.reader);
      if b.None? then Fails(d, ReaderFailed(R.EndOfFile))
      else A.Effect(d.(reader := r), [A.Set(if r.IsDone() then last else more)],
                    Some(Emit(BlockData(b.value))), false)
  }

  function SenderWrites(sum: Checksum): A.Table<SenderData, (), Output> {
    map[
      A.StateKey(INITIALIZED) :=
        [ToDo(IN_PROLOGUE, (d: SenderData, _, _) =>
           Says(d, Header(Some(d.metadata), |d.reader.file|, d.reader.blockSize)))],
      A.StateKey(IN_PROLOGUE) :=
        [OkDo([IN_PROLOGUE, NEED_ACKNOWLEDGE], (d, _, _) => WriteNext(sum, d, IN_PROLOGUE, NEED_ACKNOWLEDGE))],
      A.StateKey(IN_PROGRESS) :=
        [OkDo([IN_PROGRESS, TRANSFERRED], (d, _, _) => WriteNext(sum, d, IN_PROGRESS, TRANSFERRED))],
      A.StateKey(TRANSFERRED) := [ToDo(NEED_DATA_RECEIVED, (d, _, _) => Says(d, DataSent))],
      A.StateKey(SEND_ABORT) := [ToDo(ABORTED, (d, _, _) => Says(d, Abort))]
    ]
  }

  function TakeAck(d: SenderData, m: Message): A.Effect<SenderData, Output> {
    if !m.BlockReceived? || d.reader.blockSize == 0 || m.index >= |d.received| then Panics(d)
    else if d.received[m.index] then Fails(d, DuplicateBlockReceived)
    else if d.count + 1 > d.reader.Count() then Panics(d)
    else Agrees(d.(received := d.received[m.index := true], count := d.count + 1))
  }

  function TakeRedo(d: SenderData, m: Message): A.Effect<SenderData, Output> {
    if !m.RedoBlock? || m.index >= |d.received| then Panics(d)
    else if d.received[m.index] then Fails(d, RedoForReceivedBlock)
    else if m.index >= d.reader.next then Fails(d, RedoForUnwrittenBlock)
    else
      var (r, q) := R.RedoBlock(d.reader, m.index);
      match q
      case Queued => Agrees(d.(reader := r))
      case AlreadyQueued => Fails(d, DuplicateRedoBlock)
      case RedoError(e) => Fails(d, ReaderFailed(e))
  }

  function TakeDataReceived(d: SenderData): A.Effect<SenderData, Output> {
    if d.reader.blockSize == 0 then Panics(d)
    else if d.count < d.reader.Count() then Fails(d, InvalidDataReceived)
    else Agrees(d)
  }

  function AcknowledgeRows(): seq<Row<SenderData, Message>> {
    [AtTo([IN_PROLOGUE], IN_PROGRESS), AtTo([NEED_ACKNOWLEDGE], TRANSFERRED)]
  }

  function BlockReceivedRows(): seq<Row<SenderData, Message>> {
    [AtToDo([IN_PROGRESS], A.NO_STATE, (d, _, m) => TakeAck(d, m)),
     AtToDo([TRANSFERRED], A.NO_STATE, (d, _, m) => TakeAck(d, m)),
     AtToDo([NEED_DATA_RECEIVED], A.NO_STATE, (d, _, m) => TakeAck(d, m))]
  }

  function RedoBlockRows(): seq<Row<SenderData, Message>> {
    [AtToDo([IN_PROGRESS], A.NO_STATE, (d, _, m) => TakeRedo(d, m)),
     AtToDo([TRANSFERRED], IN_PROGRESS, (d, _, m) => TakeRedo(d, m)),
     AtToDo([NEED_DATA_RECEIVED], IN_PROGRESS, (d, _, m) => TakeRedo(d, m))]
  }

  function DataReceivedRows(): seq<Row<SenderData, Message>> {
    [AtToDo([NEED_DATA_RECEIVED], DONE, (d, _, _) => TakeDataReceived(d))]
  }

  const ABORTABLE :=
    [INITIALIZED, IN_PROLOGUE, IN_PROGRESS, NEED_ACKNOWLEDGE, TRANSFERRED, NEED_DATA_RECEIVED, SEND_ABORT]

  function AbortRows(): seq<Row<SenderData, Message>> {
    [AtTo(ABORTABLE, ABORTED)]
  }

  function SenderReads(): A.Table<SenderData, Message, Output> {
    map[
      A.OtherKey(Kind(Acknowledge)) := AcknowledgeRows(),
      A.OtherKey(Kind(BlockReceived(0))) := BlockReceivedRows(),
      A.OtherKey(Kind(RedoBlock(0))) := RedoBlockRows(),
      A.OtherKey(Kind(DataReceived)) := DataReceivedRows(),
      A.OtherKey(Kind(Abort)) := AbortRows()
    ]
  }

  /** A reply of the client and a result of the sender's functions say the same; after a panic there is no state. */
  ghost predicate SenderSame(r: C.Reply<SenderData, Output>, s: SenderState, x: (SenderState, Output),
                             refusal: TransferError) {
    match r
    case Refused => x == (s, Fail(refusal))
    case Crashed => x.1 == Panic
    case Done(state, data, out, failed) =>
      && state == SenderCode(x.0.phase) && data == SenderFields(x.0)
      && x.1 == (if out.None? then Quiet else out.value) && failed == x.1.Fail?
  }

  lemma WriteNextMeans(sum: Checksum, s: SenderState, t: Row<SenderData, ()>, more: SenderPhase, last: SenderPhase)
    requires t.to == A.NO_STATE && t.ok == Some([SenderCode(more), SenderCode(last)]) && t.do.Some?
    requires t.do.value(SenderFields(s), SenderCode(s.phase), ())
             == WriteNext(sum, SenderFields(s), SenderCode(more), SenderCode(last))
    ensures SenderSame(C.Served(A.Fire(t, SenderCode(s.phase), SenderFields(s), ()), true), s,
                       SendBlock(sum, s, more, last), NothingToWrite)
  {
    var e := WriteNext(sum, SenderFields(s), SenderCode(more), SenderCode(last));
    A.FiresPlainly(t, SenderCode(s.phase), SenderFields(s), (), e);
  }

  /** The sender's write table means `SenderWrite`, for every state of the sender. */
  lemma SenderWritesMean(sum: Checksum, s: SenderState)
    ensures SenderSame(C.Write(SenderWrites(sum), SenderCode(s.phase), SenderFields(s)), s, SenderWrite(sum, s),
                       NothingToWrite)
  {
    var code, d := SenderCode(s.phase), SenderFields(s);
    var key := A.StateKey(code);
    C.NothingToWriteIff(SenderWrites(sum), code, d);
    if SenderCanWrite(s.phase) {
      A.FiresFirst(SenderWrites(sum), key, 0, code, code, d, ());
      var t := A.Filled(key, SenderWrites(sum)[key][0]);
      match s.phase {
        case InPrologue => WriteNextMeans(sum, s, t, InPrologue, NeedAcknowledge);
        case InProgress => WriteNextMeans(sum, s, t, InProgress, Transferred);
        case _ => A.FiresPlainly(t, code, d, (), A.HandlerEffect(t, code, d, ()));
      }
    }
  }

  /** A row that leaves the state handle alone, read as the sender's function. */
  lemma SenderRow(s: SenderState, m: Message, ts: seq<Row<SenderData, Message>>, i: nat,
                  e: A.Effect<SenderData, Output>, x: (SenderState, Output))
    requires A.OtherKey(Kind(m)) in SenderReads() && ts == SenderReads()[A.OtherKey(Kind(m))] && i < |ts|
    requires ts[i].at.Some? && SenderCode(s.phase) in ts[i].at.value && ts[i].ok.None? && A.Flaw(ts[i]).None?
    requires forall k :: 0 <= k < i ==> SenderCode(s.phase) !in A.Triggers(A.OtherKey(Kind(m)), ts[k])
    requires A.HandlerEffect(ts[i], SenderCode(s.phase), SenderFields(s), m) == e
    requires if e.ops == [] then
               && SenderCode(x.0.phase) == (if ts[i].to != A.NO_STATE then ts[i].to else SenderCode(s.phase))
               && SenderFields(x.0) == e.data && e.failed == x.1.Fail?
               && x.1 == (if e.out.None? then Quiet else e.out.value)
             else e.ops == [A.Crash] && x.1 == Panic
    ensures SenderSame(C.Read(SenderReads(), Kind(m), SenderCode(s.phase), SenderFields(s), m), s, x, UnexpectedMessage)
  {
    C.ReadsPlainly(SenderReads(), Kind(m), ts, i, SenderCode(s.phase), SenderFields(s), m, e);
  }

  lemma AckedMeans(s: SenderState, m: Message)
    requires s.reader.blockSize > 0 && m.BlockReceived? && Acking(s.phase)
    ensures SenderSame(C.Read(SenderReads(), Kind(m), SenderCode(s.phase), SenderFields(s), m), s, Acked(s, m.index),
                       UnexpectedMessage)
  {
    var i := if s.phase == InProgress then 0 else if s.phase == Transferred then 1 else 2;
    SenderRow(s, m, BlockReceivedRows(), i, TakeAck(SenderFields(s), m), Acked(s, m.index));
  }

  lemma RedoMeans(s: SenderState, m: Message)
    requires m.RedoBlock? && Acking(s.phase)
    ensures SenderSame(C.Read(SenderReads(), Kind(m), SenderCode(s.phase), SenderFields(s), m), s, Redo(s, m.index),
                       UnexpectedMessage)
  {
    var i := if s.phase == InProgress then 0 else if s.phase == Transferred then 1 else 2;
    SenderRow(s, m, RedoBlockRows(), i, TakeRedo(SenderFields(s), m), Redo(s, m.index));
  }

  lemma AcknowledgeMeans(s: SenderState)
    requires s.reader.blockSize > 0 && s.phase in {InPrologue, NeedAcknowledge}
    ensures SenderSame(C.Read(SenderReads(), Kind(Acknowledge), SenderCode(s.phase), SenderFields(s), Acknowledge), s,
                       SenderRead(s, Acknowledge), UnexpectedMessage)
  {
    var i := if s.phase == InPrologue then 0 else 1;
    var e: A.Effect<SenderData, Output> := A.Effect(SenderFields(s), [], None, false);
    SenderRow(s, Acknowledge, AcknowledgeRows(), i, e, SenderRead(s, Acknowledge));
  }

  lemma DataReceivedMeans(s: SenderState)
    requires s.reader.blockSize > 0 && s.phase == NeedDataReceived
    ensures SenderSame(C.Read(SenderReads(), Kind(DataReceived), SenderCode(s.phase), SenderFields(s), DataReceived), s,
                       SenderRead(s, DataReceived), UnexpectedMessage)
  {
    SenderRow(s, DataReceived, DataReceivedRows(), 0, TakeDataReceived(SenderFields(s)),
              SenderRead(s, DataReceived));
  }

  lemma AbortMeans(s: SenderState)
    requires s.reader.blockSize > 0 && s.phase !in {SenderPhase.Done, Aborted}
    ensures SenderSame(C.Read(SenderReads(), Kind(Abort), SenderCode(s.phase), SenderFields(s), Abort), s,
                       SenderRead(s, Abort), UnexpectedMessage)
  {
    SenderRow(s, Abort, AbortRows(), 0, A.Effect(SenderFields(s), [], None, false), SenderRead(s, Abort));
  }

  /** When the sender's read table has a row for a message in a phase. */
  predicate SenderExpects(p: SenderPhase, m: Message) {
    match m
    case Acknowledge => p in {InPrologue, NeedAcknowledge}
    case BlockReceived(_) => Acking(p)
    case RedoBlock(_) => Acking(p)
    case DataReceived => p == NeedDataReceived
    case Abort => p !in {SenderPhase.Done, Aborted}
    case _ => false
  }

  /** The phases that the rows under a message kind are triggered by. */
  lemma SenderTriggers(p: SenderPhase, m: Message, ts: seq<Row<SenderData, Message>>, i: nat)
    requires A.OtherKey(Kind(m)) in SenderReads() && ts == SenderReads()[A.OtherKey(Kind(m))]
    requires i < |ts| && SenderCode(p) in A.Triggers(A.OtherKey(Kind(m)), ts[i])
    ensures SenderExpects(p, m)
  {
  }

  lemma SenderUnexpected(p: SenderPhase, d: SenderData, m: Message)
    requires !SenderExpects(p, m)
    ensures C.Read(SenderReads(), Kind(m), SenderCode(p), d, m).Refused?
  {
    C.UnexpectedIff(SenderReads(), Kind(m), SenderCode(p), d, m);
    if !C.Read(SenderReads(), Kind(m), SenderCode(p), d, m).Refused? {
      var ts := SenderReads()[A.OtherKey(Kind(m))];
      var i: nat :| i < |ts| && SenderCode(p) in A.Triggers(A.OtherKey(Kind(m)), ts[i]);
      SenderTriggers(p, m, ts, i);
    }
  }

  /** The sender's read table means `SenderRead`, for every state and every message. */
  lemma SenderReadsMean(s: SenderState, m: Message)
    requires s.reader.blockSize > 0
    ensures SenderSame(C.Read(SenderReads(), Kind(m), SenderCode(s.phase), SenderFields(s), m), s, SenderRead(s, m),
                       UnexpectedMessage)
  {
    if !SenderExpects(s.phase, m) {
      SenderUnexpected(s.phase, SenderFields(s), m);
    } else {
      match m {
        case Acknowledge => AcknowledgeMeans(s);
        case BlockReceived(_) => AckedMeans(s, m);
        case RedoBlock(_) => RedoMeans(s, m);
        case DataReceived => DataReceivedMeans(s);
        case Abort => AbortMeans(s);
      }
    }
  }

  lemma OneRowOk<D, I>(key: A.Key, t: Row<D, I>)
    requires A.Sound(key, t)
    requires key.OtherKey? ==> forall j, k :: 0 <= j < k < |t.at.value| ==> t.at.value[j] != t.at.value[k]
    ensures A.KeyOk(key, [t])
  {
    A.UnambiguousDistinct(key, [t]);
  }

  lemma SenderWritesCompile(sum: Checksum)
    ensures A.WellFormed(SenderWrites(sum))
    ensures forall key :: key in SenderWrites(sum) ==> key.StateKey? && SenderWrites(sum)[key] != []
  {
    forall key | key in SenderWrites(sum)
      ensures A.KeyOk(key, SenderWrites(sum)[key])
    {
      OneRowOk(key, SenderWrites(sum)[key][0]);
    }
  }

  lemma ThreeRowsOk(kind: nat, ts: seq<Row<SenderData, Message>>)
    requires |ts| == 3 && ts[0].at == Some([IN_PROGRESS]) && ts[1].at == Some([TRANSFERRED])
    requires ts[2].at == Some([NEED_DATA_RECEIVED])
    requires forall i :: 0 <= i < 3 ==> A.Flaw(ts[i]).None?
    ensures A.KeyOk(A.OtherKey(kind), ts)
  {
    A.UnambiguousDistinct(A.OtherKey(kind), ts);
  }

  lemma AcknowledgeRowsOk(kind: nat)
    ensures A.KeyOk(A.OtherKey(kind), AcknowledgeRows())
  {
    A.UnambiguousDistinct(A.OtherKey(kind), AcknowledgeRows());
  }

  lemma SenderReadsCompile()
    ensures A.WellFormed(SenderReads())
  {
    AcknowledgeRowsOk(Kind(Acknowledge));
    ThreeRowsOk(Kind(BlockReceived(0)), BlockReceivedRows());
    ThreeRowsOk(Kind(RedoBlock(0)), RedoBlockRows());
    OneRowOk(A.OtherKey(Kind(DataReceived)), DataReceivedRows()[0]);
    OneRowOk(A.OtherKey(Kind(Abort)), AbortRows()[0]);
  }

  // ---- receiver ----

  /** The fields of a receiver besides its state. */
  datatype ReceiverData = ReceiverData(writer: Option<W.WriterState>, next: nat, last: Option<Block>,
                                       redo: Option<seq<nat>>)

  function ReceiverCode(p: ReceiverPhase): A.State {
    match p
    case Waiting => INITIALIZED
    case SendAcknowledge => SEND_ACKNOWLEDGE
    case NeedBlock => NEED_BLOCK
    case HandleBlock => HANDLE_BLOCK
    case NeedDataSent => NEED_DATA_SENT
    case SendDataReceived => SEND_DATA_RECEIVED
    case Finished => DONE
    case SendingAbort => SEND_ABORT
    case GivenUp => ABORTED
  }

  function ReceiverFields(r: ReceiverState): ReceiverData {
    ReceiverData(r.writer, r.next, r.last, r.redo)
  }

  /** The state that a written reply leads to. */
  function ReplyTarget(d: ReceiverData): A.State
    requires d.writer.Some? && d.writer.value.blockSize > 0
  {
    if d.redo.Some? then HANDLE_BLOCK else if d.writer.value.IsDone() then NEED_DATA_SENT else NEED_BLOCK
  }

  function WriteReply(d: ReceiverData): A.Effect<ReceiverData, Output> {
    if d.writer.None? || d.writer.value.blockSize == 0 then Panics(d)
    else if d.last.Some? then
      var d' := d.(last := None);
      A.Effect(d', [A.Set(ReplyTarget(d'))], Some(Emit(BlockReceived(d.last.value.index))), false)
    else if d.redo.None? || d.redo.value == [] then Panics(d)
    else
      var d' := d.(redo := if |d.redo.value| == 1 then None else Some(d.redo.value[1..]));
      A.Effect(d', [A.Set(ReplyTarget(d'))], Some(Emit(RedoBlock(d.redo.value[0]))), false)
  }

  function ReceiverWrites(): A.Table<ReceiverData, (), Output> {
    map[
      A.StateKey(SEND_ACKNOWLEDGE) := [ToDo(NEED_BLOCK, (d, _, _) => Says(d, Acknowledge))],
      A.StateKey(HANDLE_BLOCK) := [OkDo([HANDLE_BLOCK, NEED_BLOCK, NEED_DATA_SENT], (d, _, _) => WriteReply(d))],
      A.StateKey(SEND_DATA_RECEIVED) := [ToDo(DONE, (d, _, _) => Says(d, DataReceived))],
      A.StateKey(SEND_ABORT) := [ToDo(ABORTED, (d, _, _) => Says(d, Abort))]
    ]
  }

  function TakeHeader(factory: Factory, d: ReceiverData, m: Message): A.Effect<ReceiverData, Output> {
    if !m.Header? then Panics(d)
    else if m.metadata.None? then Fails(d, MissingMetadata)
    else if m.blockSize == 0 then Fails(d, ZeroBlockSize)
    else
      var storage := factory(m.metadata.value, m.totalSize);
      if storage.None? then Fails(d, FactoryFailed)
      else Agrees(d.(writer := Some(W.NewWriter(storage.value, m.blockSize))))
  }

  function TakeBlock(sum: Checksum, d: ReceiverData, m: Message): A.Effect<ReceiverData, Output> {
    if !m.BlockData? || d.writer.None? then Panics(d)
    else
      var b := m.block;
      var (w, status) := W.WriteBlock(sum, d.writer.value, b);
      var d' := d.(writer := Some(w));
      if status.IndexPanic? then Panics(d)
      else if status.BadBlockChecksum? then Agrees(d'.(redo := Some([b.index])))
      else if !status.Written? then Fails(d', WriterFailed(status))
      else if b.index > d.next then Agrees(d'.(redo := Some(Gap(d.next, b.index)), last := Some(b)))
      else if b.index < d.next then Panics(d)
      else Agrees(d'.(next := d.next + 1, last := Some(b)))
  }

  function HeaderRows(factory: Factory): seq<Row<ReceiverData, Message>> {
    [AtToDo([INITIALIZED], SEND_ACKNOWLEDGE, (d, _, m) => TakeHeader(factory, d, m))]
  }

  function BlockRows(sum: Checksum): seq<Row<ReceiverData, Message>> {
    [AtToDo([NEED_BLOCK], HANDLE_BLOCK, (d, _, m) => TakeBlock(sum, d, m))]
  }

  function DataSentRows(): seq<Row<ReceiverData, Message>> {
    [AtTo([NEED_DATA_SENT], SEND_DATA_RECEIVED)]
  }

  function ReceiverReads(sum: Checksum, factory: Factory): A.Table<ReceiverData, Message, Output> {
    map[
      A.OtherKey(Kind(Header(None, 0, 0))) := HeaderRows(factory),
      A.OtherKey(Kind(BlockData(Block(0, [], [])))) := BlockRows(sum),
      A.OtherKey(Kind(DataSent)) := DataSentRows()
    ]
  }

  ghost predicate ReceiverSame(r: C.Reply<ReceiverData, Output>, s: ReceiverState, x: (ReceiverState, Output),
                               refusal: TransferError) {
    match r
    case Refused => x == (s, Fail(refusal))
    case Crashed => x.1 == Panic
    case Done(state, data, out, failed) =>
      && state == ReceiverCode(x.0.phase) && data == ReceiverFields(x.0)
      && x.1 == (if out.None? then Quiet else out.value) && failed == x.1.Fail?
  }

  lemma ReplyMeans(r: ReceiverState, t: Row<ReceiverData, ()>)
    requires t.to == A.NO_STATE && t.ok == Some([HANDLE_BLOCK, NEED_BLOCK, NEED_DATA_SENT]) && t.do.Some?
    requires t.do.value(ReceiverFields(r), ReceiverCode(r.phase), ()) == WriteReply(ReceiverFields(r))
    ensures ReceiverSame(C.Served(A.Fire(t, ReceiverCode(r.phase), ReceiverFields(r), ()), true), r, Reply(r),
                         NothingToWrite)
  {
    A.FiresPlainly(t, ReceiverCode(r.phase), ReceiverFields(r), (), WriteReply(ReceiverFields(r)));
  }

  /** The receiver's write table means `ReceiverWrite`, for every state of the receiver. */
  lemma ReceiverWritesMean(r: ReceiverState)
    ensures ReceiverSame(C.Write(ReceiverWrites(), ReceiverCode(r.phase), ReceiverFields(r)), r, ReceiverWrite(r),
                         NothingToWrite)
  {
    var code, d := ReceiverCode(r.phase), ReceiverFields(r);
    var key := A.StateKey(code);
    C.NothingToWriteIff(ReceiverWrites(), code, d);
    if ReceiverCanWrite(r.phase) {
      A.FiresFirst(ReceiverWrites(), key, 0, code, code, d, ());
      var t := A.Filled(key, ReceiverWrites()[key][0]);
      match r.phase {
        case HandleBlock => ReplyMeans(r, t);
        case _ => A.FiresPlainly(t, code, d, (), A.HandlerEffect(t, code, d, ()));
      }
    }
  }

  lemma ReceiverRow(sum: Checksum, factory: Factory, r: ReceiverState, m: Message,
                    ts: seq<Row<ReceiverData, Message>>, e: A.Effect<ReceiverData, Output>,
                    x: (ReceiverState, Output))
    requires A.OtherKey(Kind(m)) in ReceiverReads(sum, factory)
    requires ts == ReceiverReads(sum, factory)[A.OtherKey(Kind(m))]
    requires |ts| == 1 && ts[0].at == Some([ReceiverCode(r.phase)]) && ts[0].ok.None? && A.Flaw(ts[0]).None?
    requires A.HandlerEffect(ts[0], ReceiverCode(r.phase), ReceiverFields(r), m) == e
    requires if e.ops == [] then
               && ReceiverCode(x.0.phase) == ts[0].to != A.NO_STATE
               && ReceiverFields(x.0) == e.data && e.failed == x.1.Fail?
               && x.1 == (if e.out.None? then Quiet else e.out.value)
             else e.ops == [A.Crash] && x.1 == Panic
    ensures ReceiverSame(C.Read(ReceiverReads(sum, factory), Kind(m), ReceiverCode(r.phase), ReceiverFields(r), m), r,
                         x, UnexpectedMessage)
  {
    C.ReadsPlainly(ReceiverReads(sum, factory), Kind(m), ts, 0, ReceiverCode(r.phase), ReceiverFields(r), m, e);
  }

  predicate ReceiverExpects(p: ReceiverPhase, m: Message) {
    match m
    case Header(_, _, _) => p == Waiting
    case BlockData(_) => p == NeedBlock
    case DataSent => p == NeedDataSent
    case _ => false
  }

  lemma ReceiverUnexpected(sum: Checksum, factory: Factory, p: ReceiverPhase, d: ReceiverData, m: Message)
    requires !ReceiverExpects(p, m)
    ensures C.Read(ReceiverReads(sum, factory), Kind(m), ReceiverCode(p), d, m).Refused?
  {
    C.UnexpectedIff(ReceiverReads(sum, factory), Kind(m), ReceiverCode(p), d, m);
  }

  lemma HeaderMeans(sum: Checksum, factory: Factory, r: ReceiverState, m: Message)
    requires m.Header? && r.phase == Waiting
    ensures ReceiverSame(C.Read(ReceiverReads(sum, factory), Kind(m), ReceiverCode(r.phase), ReceiverFields(r), m), r,
                         AcceptHeader(factory, r, m), UnexpectedMessage)
  {
    ReceiverRow(sum, factory, r, m, HeaderRows(factory), TakeHeader(factory, ReceiverFields(r), m),
                AcceptHeader(factory, r, m));
  }

  lemma BlockMeans(sum: Checksum, factory: Factory, r: ReceiverState, m: Message)
    requires m.BlockData? && r.phase == NeedBlock
    ensures ReceiverSame(C.Read(ReceiverReads(sum, factory), Kind(m), ReceiverCode(r.phase), ReceiverFields(r), m), r,
                         AcceptBlock(sum, r, m.block), UnexpectedMessage)
  {
    ReceiverRow(sum, factory, r, m, BlockRows(sum), TakeBlock(sum, ReceiverFields(r), m),
                AcceptBlock(sum, r, m.block));
  }

  /** The receiver's read table means `ReceiverRead`, for every state and every message. */
  lemma ReceiverReadsMean(sum: Checksum, factory: Factory, r: ReceiverState, m: Message)
    ensures ReceiverSame(C.Read(ReceiverReads(sum, factory), Kind(m), ReceiverCode(r.phase), ReceiverFields(r), m), r,
                         ReceiverRead(sum, factory, r, m), UnexpectedMessage)
  {
    if !ReceiverExpects(r.phase, m) {
      ReceiverUnexpected(sum, factory, r.phase, ReceiverFields(r), m);
    } else {
      match m {
        case Header(_, _, _) => HeaderMeans(sum, factory, r, m);
        case BlockData(_) => BlockMeans(sum, factory, r, m);
        case DataSent =>
          ReceiverRow(sum, factory, r, m, DataSentRows(), A.Effect(ReceiverFields(r), [], None, false),
                      ReceiverRead(sum, factory, r, m));
      }
    }
  }

  lemma ReceiverTablesCompile(sum: Checksum, factory: Factory)
    ensures A.WellFormed(ReceiverWrites()) && A.WellFormed(ReceiverReads(sum, factory))
    ensures forall key :: key in ReceiverWrites() ==> key.StateKey? && ReceiverWrites()[key] != []
  {
    forall key | key in ReceiverWrites()
      ensures A.KeyOk(key, ReceiverWrites()[key])
    {
      A.UnambiguousDistinct(key, ReceiverWrites()[key]);
    }
    forall key | key in ReceiverReads(sum, factory)
      ensures A.KeyOk(key, ReceiverReads(sum, factory)[key])
    {
      A.UnambiguousDistinct(key, ReceiverReads(sum, factory)[key]);
    }
  }

  /** The receiver is designed to write first: in a state in which it can write it refuses every message. The sender is
      not, and does not claim to be. */
  lemma ReceiverWritesFirst(sum: Checksum, factory: Factory, p: ReceiverPhase, d: ReceiverData, m: Message)
    requires A.StateKey(ReceiverCode(p)) in ReceiverWrites()
    ensures C.Read(ReceiverReads(sum, factory), Kind(m), ReceiverCode(p), d, m).Refused?
  {
    ReceiverUnexpected(sum, factory, p, d, m);
  }
}
