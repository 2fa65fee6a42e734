/** Exactly when a run of sender and receiver fails, and that it cannot get stuck before. */
module LinkFailures {
  import opened Blocks
  import opened Counting
  import opened Transfer
  import opened Link
  import opened LinkSafety
  import Runs
  import S = SenderRuns
  import R = ReceiverRuns
  import BR = BlockReader
  import W = BlockWriter

  // ---- the order of messages ----

  /** Before the sender has read the acknowledgement of the header. */
  predicate Early(p: SenderPhase) {
    p in {Initialized, InPrologue, NeedAcknowledge}
  }

  /** Before the receiver has written it. */
  predicate Young(p: ReceiverPhase) {
    p in {Waiting, SendAcknowledge}
  }

  /** The header comes first, once. */
  ghost predicate HeaderFirst(toR: seq<Message>, sp: SenderPhase, rp: ReceiverPhase, rOk: bool) {
    && (rOk ==> forall k :: 0 <= k < |toR| ==> (toR[k].Header? <==> k == 0 && rp == Waiting))
    && (rOk && rp == Waiting && toR == [] ==> sp == Initialized)
    && (sp == Initialized ==> toR == [] && rp == Waiting)
  }

  /** Its acknowledgement comes first, once. */
  ghost predicate AckFirst(toS: seq<Message>, sp: SenderPhase, rp: ReceiverPhase, sOk: bool) {
    && (sOk ==> forall k :: 0 <= k < |toS| ==> (toS[k] == Acknowledge <==> k == 0 && Early(sp)))
    && (sOk && Early(sp) && toS == [] ==> Young(rp))
    && (Young(rp) ==> toS == [] && (sOk ==> Early(sp)))
  }

  /** `DataReceived` comes last; a sender that waits for it will get it or has its `DataSent` on the way. */
  ghost predicate EndLast(y: System) {
    && (forall k :: 0 <= k < |y.toS| && y.toS[k] == DataReceived ==> k == |y.toS| - 1 && y.rOk && y.r.phase == Finished)
    && (y.rOk && y.sOk && y.r.phase == Finished && y.s.phase != Done ==>
          y.toS != [] && y.toS[|y.toS| - 1] == DataReceived)
    && (y.rOk && y.sOk && y.s.phase == NeedDataReceived ==>
          DataSent in y.toR || y.r.phase in {SendDataReceived, Finished})
    && (y.sOk && y.s.phase == Done ==> y.rOk && y.r.phase == Finished)
  }

  /** Every block that is on its way or asked for again has been sent before. */
  ghost predicate Known(next: nat, toR: seq<Message>, redo: Option<seq<nat>>, toS: seq<Message>) {
    && (forall k :: 0 <= k < |toR| && toR[k].BlockData? ==> toR[k].block.index < next)
    && (redo.Some? ==> forall k :: 0 <= k < |redo.value| ==> redo.value[k] < next)
    && (forall k :: 0 <= k < |toS| && toS[k].RedoBlock? ==> toS[k].index < next)
  }

  ghost predicate Ordered(y: System) {
    && HeaderFirst(y.toR, y.s.phase, y.r.phase, y.rOk) && AckFirst(y.toS, y.s.phase, y.r.phase, y.sOk)
    && EndLast(y) && Known(y.s.reader.next, y.toR, y.r.redo, y.toS)
  }

  // ---- the two ends ----

  /** What the sender writes in which phase. */
  lemma SenderWriteOrder(sum: Checksum, job: Job, s: SenderState)
    requires job.Valid() && SenderOk(job, s) && SenderCanWrite(s.phase)
    ensures var (s', o) := SenderWrite(sum, s);
            && o.Emit? && s.reader.next <= s'.reader.next && s'.phase !in {Initialized, Done}
            && (o.message.Header? <==> s.phase == Initialized) && (Early(s'.phase) <==> Early(s.phase))
            && (o.message.BlockData? ==> o.message.block.index < s'.reader.next)
            && (s'.phase == NeedDataReceived <==> o.message == DataSent)
  {
    S.WriteKeeps(sum, s);
    BR.NextServesHead(sum, s.reader);
  }

  /** When the sender refuses a message from a receiver that keeps the order. */
  predicate SenderRefuses(s: SenderState, m: Message) {
    match m
    case RedoBlock(i) => (i < |s.received| && s.received[i]) || i in s.reader.redo
    case DataReceived => s.phase != NeedDataReceived
    case _ => false
  }

  lemma SenderReadOrder(job: Job, s: SenderState, m: Message)
    requires job.Valid() && SenderOk(job, s) && s.phase !in {Initialized, Done} && Up(job, m)
    requires m == Acknowledge <==> Early(s.phase)
    requires m.RedoBlock? ==> m.index < s.reader.next
    requires m.BlockReceived? ==> !s.received[m.index]
    requires m == DataReceived ==> forall i :: 0 <= i < |s.received| ==> s.received[i]
    ensures var (s', o) := SenderRead(s, m);
            && (o == Quiet <==> !SenderRefuses(s, m)) && s'.reader.next == s.reader.next && s'.phase != Initialized
            && (o == Quiet ==>
                  && !Early(s'.phase) && (s'.phase == NeedDataReceived ==> s.phase == NeedDataReceived)
                  && (s'.phase == Done <==> m == DataReceived))
  {
    S.ReadKeeps(s, m);
    CountFull(s.received);
    if m.RedoBlock? {
      BR.RedoQueuesOnce(s.reader, m.index);
    }
  }

  lemma ReceiverWriteOrder(job: Job, r: ReceiverState, next: nat)
    requires job.Valid() && R.Inv(r) && r.phase !in {SendingAbort, GivenUp} && ReceiverCanWrite(r.phase)
    requires r.redo.Some? ==> forall k :: 0 <= k < |r.redo.value| ==> r.redo.value[k] < next
    ensures var (r', o) := ReceiverWrite(r);
            && o.Emit? && !Young(r'.phase)
            && (o.message == Acknowledge <==> r.phase == SendAcknowledge)
            && (o.message == DataReceived <==> r.phase == SendDataReceived)
            && (o.message.RedoBlock? ==> o.message.index < next)
            && (r'.redo.Some? ==> forall k :: 0 <= k < |r'.redo.value| ==> r'.redo.value[k] < next)
            && (r'.phase == Finished <==> r.phase == SendDataReceived)
            && r'.phase != SendDataReceived
  {
    R.WriteKeeps(r);
  }

  /** When the receiver refuses a message from a sender that keeps the order. */
  ghost predicate ReceiverRefuses(factory: Factory, job: Job, r: ReceiverState, m: Message)
    requires job.Valid()
  {
    match m
    case Header(_, _, _) => factory(job.name, |job.file|).None?
    case BlockData(b) => HasWritten(r, b.index)
    case DataSent => exists i :: 0 <= i < job.Count() && !HasWritten(r, i)
    case _ => false
  }

  /** The status of a block of the right length. */
  lemma StatusOf(sum: Checksum, w: W.WriterState, b: Block)
    requires w.Valid() && b.index < w.Count() && |b.data| == |Range(w.out, w.blockSize, b.index)|
    ensures W.WriteBlock(sum, w, b).1 == if w.written[b.index] then W.AlreadyWritten
                                         else if sum(b.index, b.data) != b.checksum then W.BadBlockChecksum
                                         else W.Written
  {
    NoWrap(w.blockSize, |w.out|, b.index);
    InFileIff(w.blockSize, |w.out|, b.index);
  }

  lemma BlockReadOrder(sum: Checksum, factory: Factory, job: Job, r: ReceiverState, b: Block, next: nat)
    requires job.Valid() && ReceiverOk(r) && r.phase in {NeedBlock, NeedDataSent} && Faithful(job, r)
    requires Down(sum, job, BlockData(b)) && b.index < next
    ensures var (r', o) := ReceiverRead(sum, factory, r, BlockData(b));
            && (o == Quiet <==> !HasWritten(r, b.index))
            && (o == Quiet ==> r'.phase == HandleBlock)
            && (r'.phase in {HandleBlock, NeedDataSent})
            && (r'.redo.Some? ==> forall k :: 0 <= k < |r'.redo.value| ==> r'.redo.value[k] < next)
  {
    W.DoneIff(r.writer.value);
    if r.phase == NeedBlock {
      StatusOf(sum, r.writer.value, b);
      R.BlockKeeps(sum, r, b);
    }
  }

  lemma ReceiverReadOrder(sum: Checksum, factory: Factory, job: Job, r: ReceiverState, m: Message, next: nat)
    requires job.Valid() && Honest(factory) && ReceiverOk(r) && Faithful(job, r) && Down(sum, job, m)
    requires !ReceiverCanWrite(r.phase) && r.phase != Finished && (m.Header? <==> r.phase == Waiting)
    requires m.BlockData? ==> m.block.index < next
    ensures var (r', o) := ReceiverRead(sum, factory, r, m);
            && (o == Quiet <==> !ReceiverRefuses(factory, job, r, m))
            && r'.phase !in {Waiting, Finished} && (r'.phase == SendAcknowledge <==> r.phase == Waiting)
            && (o == Quiet && m == DataSent ==> r'.phase == SendDataReceived)
            && (r'.redo.Some? ==> forall k :: 0 <= k < |r'.redo.value| ==> r'.redo.value[k] < next)
  {
    match m
    case BlockData(b) => BlockReadOrder(sum, factory, job, r, b, next);
    case DataSent =>
      CountBounds(job.blockSize, |job.file|);
      R.DataSentIff(sum, factory, r);
      AllWrittenIff(job, r);
    case Header(_, _, _) => R.HeaderKeeps(factory, r, m);
  }

  // ---- every action keeps the order ----

  lemma SenderWrote(y: System, s: SenderState, m: Message)
    requires Ordered(y) && y.s.phase != Done && y.s.reader.next <= s.reader.next && s.phase !in {Initialized, Done}
    requires (m.Header? <==> y.s.phase == Initialized) && (Early(s.phase) <==> Early(y.s.phase))
    requires (m.BlockData? ==> m.block.index < s.reader.next) && (s.phase == NeedDataReceived ==> m == DataSent)
    ensures Ordered(y.(s := s, toR := y.toR + [m], down := y.down + [m]))
  {
    assert (y.toR + [m])[|y.toR|] == m;
  }

  lemma SenderHasRead(y: System, s: SenderState, ok: bool)
    requires Ordered(y) && y.sOk && y.toS != [] && y.s.phase != Done && s.reader.next == y.s.reader.next
    requires s.phase != Initialized
    requires ok ==> && !Early(s.phase) && (s.phase == NeedDataReceived ==> y.s.phase == NeedDataReceived)
                    && (s.phase == Done <==> y.toS[0] == DataReceived)
    ensures Ordered(y.(s := s, toS := y.toS[1..], sOk := ok))
  {
  }

  lemma ReceiverWrote(y: System, r: ReceiverState, m: Message)
    requires Ordered(y) && y.rOk && ReceiverCanWrite(y.r.phase) && !Young(r.phase)
    requires m == Acknowledge <==> y.r.phase == SendAcknowledge
    requires m == DataReceived <==> y.r.phase == SendDataReceived
    requires m.RedoBlock? ==> m.index < y.s.reader.next
    requires r.redo.Some? ==> forall k :: 0 <= k < |r.redo.value| ==> r.redo.value[k] < y.s.reader.next
    requires (r.phase == Finished <==> y.r.phase == SendDataReceived) && r.phase != SendDataReceived
    ensures Ordered(y.(r := r, toS := y.toS + [m], up := y.up + [m]))
  {
    assert (y.toS + [m])[|y.toS|] == m;
  }

  lemma ReceiverHasRead(y: System, r: ReceiverState, ok: bool)
    requires Ordered(y) && y.rOk && y.toR != [] && !ReceiverCanWrite(y.r.phase) && y.r.phase != Finished
    requires r.phase !in {Waiting, Finished} && (r.phase == SendAcknowledge <==> y.r.phase == Waiting)
    requires ok && y.toR[0] == DataSent ==> r.phase == SendDataReceived
    requires r.redo.Some? ==> forall k :: 0 <= k < |r.redo.value| ==> r.redo.value[k] < y.s.reader.next
    ensures Ordered(y.(r := r, toR := y.toR[1..], rOk := ok))
  {
    assert y.toR == [y.toR[0]] + y.toR[1..];
  }

  ghost predicate Sound(sum: Checksum, job: Job, y: System) {
    Inv(sum, job, y) && Ordered(y)
  }

  /** What the sender knows when `DataReceived` is all that is left for it to read. */
  lemma AllAcked(sum: Checksum, job: Job, y: System)
    requires Sound(sum, job, y) && y.sOk && y.toS != [] && y.toS[0] == DataReceived
    ensures forall i :: 0 <= i < |y.s.received| ==> y.s.received[i]
  {
    W.DoneIff(y.r.writer.value);
    forall i | 0 <= i < job.Count()
      ensures y.s.received[i]
    {
      assert Acks(y, i) == 1;
      OccursIn(y.toS, BlockReceived(i));
    }
  }

  /** An acknowledgement that comes next is not recorded yet. */
  lemma NotYetAcked(sum: Checksum, job: Job, y: System)
    requires Sound(sum, job, y) && y.sOk && y.toS != [] && y.toS[0].BlockReceived?
    ensures y.toS[0].index < job.Count() && !y.s.received[y.toS[0].index]
  {
    var i := y.toS[0].index;
    assert Up(job, y.toS[0]) && Acks(y, i) <= 1;
    OccursIn(y.toS, BlockReceived(i));
  }

  lemma SenderReadsInOrder(sum: Checksum, job: Job, y: System)
    requires Sound(sum, job, y) && Enabled(sum, y, SenderReads)
    ensures var (s', o) := SenderRead(y.s, y.toS[0]);
            && (o == Quiet <==> !SenderRefuses(y.s, y.toS[0]))
            && Ordered(y.(s := s', toS := y.toS[1..], sOk := o == Quiet))
  {
    var m := y.toS[0];
    if m == DataReceived { AllAcked(sum, job, y); }
    if m.BlockReceived? { NotYetAcked(sum, job, y); }
    SenderReadOrder(job, y.s, m);
    var (s', o) := SenderRead(y.s, m);
    SenderHasRead(y, s', o == Quiet);
  }

  lemma ReceiverReadsInOrder(sum: Checksum, factory: Factory, job: Job, y: System)
    requires Sound(sum, job, y) && Honest(factory) && Enabled(sum, y, ReceiverReads)
    ensures var (r', o) := ReceiverRead(sum, factory, y.r, y.toR[0]);
            && (o == Quiet <==> !ReceiverRefuses(factory, job, y.r, y.toR[0]))
            && Ordered(y.(r := r', toR := y.toR[1..], rOk := o == Quiet))
  {
    ReceiverReadOrder(sum, factory, job, y.r, y.toR[0], y.s.reader.next);
    var (r', o) := ReceiverRead(sum, factory, y.r, y.toR[0]);
    ReceiverHasRead(y, r', o == Quiet);
  }

  lemma SenderWritesInOrder(sum: Checksum, job: Job, y: System)
    requires Sound(sum, job, y) && Enabled(sum, y, SenderWrites)
    ensures var (s', o) := SenderWrite(sum, y.s);
            o.Emit? && Ordered(y.(s := s', toR := y.toR + [o.message], down := y.down + [o.message]))
  {
    SenderWriteOrder(sum, job, y.s);
    var (s', o) := SenderWrite(sum, y.s);
    SenderWrote(y, s', o.message);
  }

  lemma ReceiverWritesInOrder(sum: Checksum, job: Job, y: System)
    requires Sound(sum, job, y) && Enabled(sum, y, ReceiverWrites)
    ensures var (r', o) := ReceiverWrite(y.r);
            o.Emit? && Ordered(y.(r := r', toS := y.toS + [o.message], up := y.up + [o.message]))
  {
    ReceiverWriteOrder(job, y.r, y.s.reader.next);
    var (r', o) := ReceiverWrite(y.r);
    ReceiverWrote(y, r', o.message);
  }

  lemma ApplySound(sum: Checksum, factory: Factory, job: Job, y: System, a: Action)
    requires Sound(sum, job, y) && Honest(factory) && Enabled(sum, y, a)
    ensures Sound(sum, job, Apply(sum, factory, y, a))
  {
    ApplyInv(sum, factory, job, y, a);
    ApplyOrdered(sum, factory, job, y, a);
  }

  lemma ApplyOrdered(sum: Checksum, factory: Factory, job: Job, y: System, a: Action)
    requires Sound(sum, job, y) && Honest(factory) && Enabled(sum, y, a) && y.s.reader.blockSize > 0
    ensures Ordered(Apply(sum, factory, y, a))
  {
    match a
    case SenderWrites => SenderWriteLeads(sum, factory, job, y);
    case SenderReads => SenderReadLeads(sum, factory, job, y);
    case ReceiverWrites => ReceiverWriteLeads(sum, factory, job, y);
    case ReceiverReads => ReceiverReadLeads(sum, factory, job, y);
    case Corrupt(k, _, _) => CorruptInOrder(y, Apply(sum, factory, y, a), k);
  }

  lemma SenderWriteLeads(sum: Checksum, factory: Factory, job: Job, y: System)
    requires Sound(sum, job, y) && Enabled(sum, y, SenderWrites) && y.s.reader.blockSize > 0
    ensures Ordered(Apply(sum, factory, y, SenderWrites))
  {
    SenderWritesInOrder(sum, job, y);
  }

  lemma SenderReadLeads(sum: Checksum, factory: Factory, job: Job, y: System)
    requires Sound(sum, job, y) && Enabled(sum, y, SenderReads) && y.s.reader.blockSize > 0
    ensures Ordered(Apply(sum, factory, y, SenderReads))
  {
    SenderReadsInOrder(sum, job, y);
    SenderReadsUp(job, y.s, y.toS[0]);
  }

  lemma ReceiverWriteLeads(sum: Checksum, factory: Factory, job: Job, y: System)
    requires Sound(sum, job, y) && Enabled(sum, y, ReceiverWrites) && y.s.reader.blockSize > 0
    ensures Ordered(Apply(sum, factory, y, ReceiverWrites))
  {
    ReceiverWritesInOrder(sum, job, y);
  }

  lemma ReceiverReadLeads(sum: Checksum, factory: Factory, job: Job, y: System)
    requires Sound(sum, job, y) && Honest(factory) && Enabled(sum, y, ReceiverReads) && y.s.reader.blockSize > 0
    ensures Ordered(Apply(sum, factory, y, ReceiverReads))
  {
    ReceiverReadsInOrder(sum, factory, job, y);
    ReceiverReadsDown(sum, factory, job, y.r, y.toR[0]);
  }

  lemma CorruptInOrder(y: System, z: System, k: nat)
    requires Ordered(y) && k < |y.toR| == |z.toR| && z == y.(toR := z.toR, spoiled := z.spoiled)
    requires y.toR[k].BlockData? && z.toR[k].BlockData? && z.toR[k].block.index == y.toR[k].block.index
    requires forall i :: 0 <= i < |y.toR| && i != k ==> z.toR[i] == y.toR[i]
    ensures Ordered(z)
  {
    if DataSent in y.toR {
      var i :| 0 <= i < |y.toR| && y.toR[i] == DataSent;
      assert z.toR[i] == DataSent;
    }
  }

  lemma EverySoundRun(sum: Checksum, factory: Factory, job: Job, acts: seq<Action>, y: System)
    requires job.Valid() && Honest(factory) && Reaches(sum, factory, job, acts, y)
    ensures Sound(sum, job, y)
  {
    var next := (x, a, z) => Step(sum, factory, x, a, z);
    var inv: (seq<Action>, System) -> bool := (_, x) => Sound(sum, job, x);
    StartInv(sum, job);
    forall before, x, a, z | inv(before, x) && next(x, a, z)
      ensures inv(before + [a], z)
    {
      ApplySound(sum, factory, job, x, a);
    }
    Runs.RunInduction(Start(job), next, inv, acts, y);
  }

  // ---- the results ----

  /** In every run, with any detected corruption: writing never fails; the receiver fails exactly if it cannot get a
      storage, is sent a block that it has written, or is told the end while a block is missing; the sender fails
      exactly if it is asked again for a block that is acknowledged or already queued, or is told the end while it
      has blocks or its own end to send. */
  lemma FailsIff(sum: Checksum, factory: Factory, job: Job, acts: seq<Action>, y: System, a: Action)
    requires job.Valid() && Honest(factory) && Reaches(sum, factory, job, acts, y) && Enabled(sum, y, a)
    ensures y.s.reader.blockSize > 0
    ensures var z := Apply(sum, factory, y, a);
            && (z.sOk <==> y.sOk && !(a.SenderReads? && SenderRefuses(y.s, y.toS[0])))
            && (z.rOk <==> y.rOk && !(a.ReceiverReads? && ReceiverRefuses(factory, job, y.r, y.toR[0])))
  {
    EverySoundRun(sum, factory, job, acts, y);
    match a
    case SenderWrites => SenderWritesInOrder(sum, job, y);
    case SenderReads => SenderReadsInOrder(sum, job, y);
    case ReceiverWrites => ReceiverWritesInOrder(sum, job, y);
    case ReceiverReads => ReceiverReadsInOrder(sum, factory, job, y);
    case Corrupt(_, _, _) =>
  }

  /** In every run, until a side fails or both are done, some action other than a corruption is enabled. */
  lemma NeverStuck(sum: Checksum, factory: Factory, job: Job, acts: seq<Action>, y: System)
    requires job.Valid() && Honest(factory) && Reaches(sum, factory, job, acts, y)
    requires y.sOk && y.rOk && !Complete(y)
    ensures exists a: Action :: !a.Corrupt? && Enabled(sum, y, a)
  {
    EverySoundRun(sum, factory, job, acts, y);
    SomeEnabled(sum, job, y);
  }

  lemma SomeEnabled(sum: Checksum, job: Job, y: System)
    requires Sound(sum, job, y) && y.sOk && y.rOk && !Complete(y)
    ensures || Enabled(sum, y, SenderWrites) || Enabled(sum, y, SenderReads)
            || Enabled(sum, y, ReceiverWrites) || Enabled(sum, y, ReceiverReads)
  {
  }
}
