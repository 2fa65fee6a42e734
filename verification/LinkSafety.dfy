/** Safety of every interleaving, with any detected corruption and after any error of the other side. */
module LinkSafety {
  import opened Blocks
  import opened Counting
  import opened Transfer
  import opened Link
  import Runs
  import S = SenderRuns
  import R = ReceiverRuns
  import BR = BlockReader
  import W = BlockWriter

  /** What may be on its way to the receiver. */
  ghost predicate Down(sum: Checksum, job: Job, m: Message)
    requires job.Valid()
  {
    match m
    case Header(name, size, bs) => name == Some(job.name) && size == |job.file| && bs == job.blockSize
    case BlockData(b) =>
      && b.index < job.Count()
      && |b.data| == |Range(job.file, job.blockSize, b.index)|
      && (b.checksum == sum(b.index, b.data) ==> b.data == Range(job.file, job.blockSize, b.index))
    case DataSent => true
    case _ => false
  }

  /** What may be on its way to the sender. */
  ghost predicate Up(job: Job, m: Message)
    requires job.Valid()
  {
    match m
    case BlockReceived(i) => i < job.Count()
    case RedoBlock(i) => i < job.Count()
    case Acknowledge => true
    case DataReceived => true
    case _ => false
  }

  /** Written ranges hold the file's bytes. */
  ghost predicate Faithful(job: Job, r: ReceiverState)
    requires job.Valid()
  {
    r.writer.Some? ==>
      var w := r.writer.value;
      && w.blockSize == job.blockSize && |w.out| == |job.file| && |w.written| == job.Count()
      && forall i :: 0 <= i < job.Count() && w.written[i] ==>
           Range(w.out, job.blockSize, i) == Range(job.file, job.blockSize, i)
  }

  predicate HasWritten(r: ReceiverState, i: nat) {
    r.writer.Some? && i < |r.writer.value.written| && r.writer.value.written[i]
  }

  /** Acknowledgements of block `i`: recorded by the sender, in flight, or about to be written. */
  function Acks(y: System, i: nat): nat
    requires i < |y.s.received|
  {
    (if y.s.received[i] then 1 else 0) + Occurs(y.toS, BlockReceived(i)) + (if LastIs(y.r, i) then 1 else 0)
  }

  predicate LastIs(r: ReceiverState, i: nat) {
    r.last.Some? && r.last.value.index == i
  }

  /** A block is acknowledged exactly once if it is written, and not at all before. */
  ghost predicate AcksExact(job: Job, y: System)
    requires job.Valid() && |y.s.received| == job.Count()
  {
    forall i :: 0 <= i < job.Count() ==> Acks(y, i) == if HasWritten(y.r, i) then 1 else 0
  }

  ghost predicate AcksAtMost(job: Job, y: System)
    requires job.Valid() && |y.s.received| == job.Count()
  {
    forall i :: 0 <= i < job.Count() ==> Acks(y, i) <= if HasWritten(y.r, i) then 1 else 0
  }

  /** The same over everything that the receiver has ever written. */
  ghost predicate AcksLogged(job: Job, up: seq<Message>, r: ReceiverState)
    requires job.Valid()
  {
    forall i :: 0 <= i < job.Count() ==>
      Occurs(up, BlockReceived(i)) + (if LastIs(r, i) then 1 else 0) == if HasWritten(r, i) then 1 else 0
  }

  /** What is known of the acknowledgements, with and without an error of the sender. */
  ghost predicate Counted(job: Job, y: System)
    requires job.Valid()
  {
    && |y.s.received| == job.Count() && AcksAtMost(job, y) && AcksLogged(job, y.up, y.r)
    && (y.sOk ==> AcksExact(job, y))
  }

  ghost predicate SenderOk(job: Job, s: SenderState) {
    && S.Inv(s) && s.phase !in {SendAbort, Aborted} && s.metadata == job.name
    && s.reader.file == job.file && s.reader.blockSize == job.blockSize
  }

  ghost predicate ReceiverOk(r: ReceiverState) {
    R.Inv(r) && r.phase !in {SendingAbort, GivenUp}
  }

  ghost predicate Inv(sum: Checksum, job: Job, y: System) {
    && job.Valid() && !y.crashed
    && y.s.reader.blockSize == job.blockSize
    && (forall k :: 0 <= k < |y.toR| ==> Down(sum, job, y.toR[k]))
    && (forall k :: 0 <= k < |y.toS| ==> Up(job, y.toS[k]))
    && Faithful(job, y.r)
    && (y.rOk ==> ReceiverOk(y.r))
    && Counted(job, y)
    && (y.sOk ==> SenderOk(job, y.s))
  }

  lemma StartInv(sum: Checksum, job: Job)
    requires job.Valid()
    ensures Inv(sum, job, Start(job))
  {
    S.NewSenderInv(job.name, job.file, job.blockSize);
  }

  /** Whatever the sender writes is something that may be on its way to the receiver. */
  lemma SenderWritesDown(sum: Checksum, job: Job, s: SenderState)
    requires job.Valid() && SenderOk(job, s) && SenderCanWrite(s.phase)
    ensures var (s', o) := SenderWrite(sum, s);
            SenderOk(job, s') && s'.received == s.received && o.Emit? && Down(sum, job, o.message)
  {
    S.WriteKeeps(sum, s);
    BR.NextServesHead(sum, s.reader);
  }

  lemma SenderWriteInv(sum: Checksum, factory: Factory, job: Job, y: System)
    requires job.Valid() && Inv(sum, job, y) && Enabled(sum, y, SenderWrites)
    ensures Inv(sum, job, Apply(sum, factory, y, SenderWrites))
  {
    SenderWritesDown(sum, job, y.s);
    var z := Apply(sum, factory, y, SenderWrites);
    assert forall i :: 0 <= i < job.Count() ==> Acks(z, i) == Acks(y, i);
  }

  /** An accepted message records exactly the acknowledgement that it carries. */
  lemma SenderReadsUp(job: Job, s: SenderState, m: Message)
    requires job.Valid() && SenderOk(job, s) && Up(job, m)
    ensures var (s', o) := SenderRead(s, m);
            && o != Panic && s'.reader.blockSize == job.blockSize && |s'.received| == job.Count()
            && (o != Quiet ==> s'.received == s.received)
            && (o == Quiet ==>
                  && SenderOk(job, s')
                  && forall i :: 0 <= i < job.Count() ==>
                       && (s'.received[i] <==> s.received[i] || m == BlockReceived(i))
                       && !(s.received[i] && m == BlockReceived(i)))
  {
    S.ReadKeeps(s, m);
  }

  lemma SenderReadCounts(job: Job, y: System, s: SenderState, ok: bool)
    requires job.Valid() && Counted(job, y) && y.sOk && y.toS != [] && |s.received| == job.Count()
    requires !ok ==> s.received == y.s.received
    requires ok ==> forall i :: 0 <= i < job.Count() ==>
                      && (s.received[i] <==> y.s.received[i] || y.toS[0] == BlockReceived(i))
                      && !(y.s.received[i] && y.toS[0] == BlockReceived(i))
    ensures Counted(job, y.(s := s, toS := y.toS[1..], sOk := ok))
  {
    var z := y.(s := s, toS := y.toS[1..], sOk := ok);
    forall i | 0 <= i < job.Count()
      ensures Acks(z, i) <= Acks(y, i) && (ok ==> Acks(z, i) == Acks(y, i))
    {
      OccursHead(y.toS, BlockReceived(i));
    }
  }

  lemma SenderReadInv(sum: Checksum, factory: Factory, job: Job, y: System)
    requires job.Valid() && Inv(sum, job, y) && Enabled(sum, y, SenderReads)
    ensures Inv(sum, job, Apply(sum, factory, y, SenderReads))
  {
    SenderReadsUp(job, y.s, y.toS[0]);
    var (s, o) := SenderRead(y.s, y.toS[0]);
    SenderReadCounts(job, y, s, o == Quiet);
  }

  /** Writing turns an acknowledgement that is due into one that is in flight. */
  lemma ReceiverWritesUp(job: Job, r: ReceiverState, i: nat, before: seq<Message>)
    requires job.Valid() && R.Inv(r) && ReceiverCanWrite(r.phase)
    ensures var (r', o) := ReceiverWrite(r);
            && o.Emit?
            && Occurs(before + [o.message], BlockReceived(i)) + (if LastIs(r', i) then 1 else 0)
               == Occurs(before, BlockReceived(i)) + (if LastIs(r, i) then 1 else 0)
  {
    R.WriteKeeps(r);
    var m := ReceiverWrite(r).1.message;
    OccursConcat(before, [m], BlockReceived(i));
    assert [m][..0] == [];
  }

  lemma ReceiverWriteCounts(job: Job, y: System, r: ReceiverState, m: Message)
    requires job.Valid() && Counted(job, y) && r.writer == y.r.writer
    requires R.Inv(y.r) && ReceiverCanWrite(y.r.phase) && ReceiverWrite(y.r) == (r, Emit(m))
    ensures Counted(job, y.(r := r, toS := y.toS + [m], up := y.up + [m]))
  {
    var z := y.(r := r, toS := y.toS + [m], up := y.up + [m]);
    forall i | 0 <= i < job.Count()
      ensures Acks(z, i) == Acks(y, i) && HasWritten(z.r, i) == HasWritten(y.r, i)
      ensures Occurs(z.up, BlockReceived(i)) + (if LastIs(z.r, i) then 1 else 0)
              == Occurs(y.up, BlockReceived(i)) + (if LastIs(y.r, i) then 1 else 0)
    {
      ReceiverWritesUp(job, y.r, i, y.toS);
      ReceiverWritesUp(job, y.r, i, y.up);
    }
  }

  lemma ReceiverWriteInv(sum: Checksum, factory: Factory, job: Job, y: System)
    requires job.Valid() && Inv(sum, job, y) && Enabled(sum, y, ReceiverWrites)
    ensures Inv(sum, job, Apply(sum, factory, y, ReceiverWrites))
  {
    R.WriteKeeps(y.r);
    var (r, o) := ReceiverWrite(y.r);
    ReceiverWriteCounts(job, y, r, o.message);
  }

  lemma BlockFaithful(sum: Checksum, job: Job, r: ReceiverState, b: Block)
    requires job.Valid() && Faithful(job, r) && R.Inv(r) && r.phase == NeedBlock && Down(sum, job, BlockData(b))
    ensures var (r', o) := AcceptBlock(sum, r, b);
            && Faithful(job, r')
            && (forall i :: 0 <= i < job.Count() ==>
                  (HasWritten(r', i) <==> HasWritten(r, i) || (o == Quiet && r'.last == Some(b) && i == b.index)))
            && (o == Quiet && r'.last.Some? ==> r'.last == Some(b) && !HasWritten(r, b.index))
            && (o != Quiet ==> r'.last.None?)
  {
    NoWrap(job.blockSize, |job.file|, b.index);
    W.WriteEffect(sum, r.writer.value, b);
    R.BlockKeeps(sum, r, b);
  }

  /** Reading keeps written ranges faithful and makes an acknowledgement due for exactly the block it writes. */
  lemma ReceiverReadsDown(sum: Checksum, factory: Factory, job: Job, r: ReceiverState, m: Message)
    requires job.Valid() && Honest(factory) && Faithful(job, r) && ReceiverOk(r) && !ReceiverCanWrite(r.phase)
    requires Down(sum, job, m)
    ensures var (r', o) := ReceiverRead(sum, factory, r, m);
            && Faithful(job, r') && !o.Emit? && o != Panic && (o == Quiet ==> ReceiverOk(r'))
            && r.last.None?
            && forall i :: 0 <= i < job.Count() ==>
                 (HasWritten(r', i) <==> HasWritten(r, i) || LastIs(r', i)) && !(HasWritten(r, i) && LastIs(r', i))
  {
    R.ReadKeeps(sum, factory, r, m);
    if m.BlockData? && r.phase == NeedBlock {
      BlockFaithful(sum, job, r, m.block);
    }
  }

  lemma ReceiverReadInv(sum: Checksum, factory: Factory, job: Job, y: System)
    requires job.Valid() && Honest(factory) && Inv(sum, job, y) && Enabled(sum, y, ReceiverReads)
    ensures Inv(sum, job, Apply(sum, factory, y, ReceiverReads))
  {
    ReceiverReadsDown(sum, factory, job, y.r, y.toR[0]);
    var z := Apply(sum, factory, y, ReceiverReads);
    forall i | 0 <= i < job.Count()
      ensures HasWritten(z.r, i) <==> HasWritten(y.r, i) || LastIs(z.r, i)
      ensures Acks(z, i) == Acks(y, i) + if LastIs(z.r, i) then 1 else 0
    {
    }
  }

  /** Every enabled action keeps the invariant. */
  lemma ApplyInv(sum: Checksum, factory: Factory, job: Job, y: System, a: Action)
    requires job.Valid() && Honest(factory) && Inv(sum, job, y) && Enabled(sum, y, a)
    ensures Inv(sum, job, Apply(sum, factory, y, a))
  {
    match a
    case SenderWrites => SenderWriteInv(sum, factory, job, y);
    case SenderReads => SenderReadInv(sum, factory, job, y);
    case ReceiverWrites => ReceiverWriteInv(sum, factory, job, y);
    case ReceiverReads => ReceiverReadInv(sum, factory, job, y);
    case Corrupt(_, _, _) =>
      var z := Apply(sum, factory, y, a);
      assert forall i :: 0 <= i < job.Count() ==> Acks(z, i) == Acks(y, i);
  }

  lemma EveryRun(sum: Checksum, factory: Factory, job: Job, acts: seq<Action>, y: System)
    requires job.Valid() && Honest(factory) && Reaches(sum, factory, job, acts, y)
    ensures Inv(sum, job, y)
  {
    var next := (x, a, z) => Step(sum, factory, x, a, z);
    var inv: (seq<Action>, System) -> bool := (_, x) => Inv(sum, job, x);
    StartInv(sum, job);
    forall before, x, a, z | inv(before, x) && next(x, a, z)
      ensures inv(before + [a], z)
    {
      ApplyInv(sum, factory, job, x, a);
    }
    Runs.RunInduction(Start(job), next, inv, acts, y);
  }

  /** The output holds the input, byte for byte. */
  ghost predicate Delivered(job: Job, y: System) {
    y.r.writer.Some? && y.r.writer.value.out == job.file
  }

  lemma AllWrittenDelivers(job: Job, y: System)
    requires job.Valid() && Faithful(job, y.r)
    requires forall i :: 0 <= i < job.Count() ==> HasWritten(y.r, i)
    ensures Delivered(job, y)
  {
    CountBounds(job.blockSize, |job.file|);
    assert HasWritten(y.r, 0);
    var w := y.r.writer.value;
    forall i | 0 <= i < job.Count()
      ensures Range(w.out, job.blockSize, i) == Range(job.file, job.blockSize, i)
    {
      assert HasWritten(y.r, i);
    }
    RangesDetermine(w.out, job.file, job.blockSize);
  }

  /** Acknowledgements, recorded or in flight, are for written blocks and never two for the same one; of all messages
      that the receiver has ever written, at most one acknowledges a block. */
  ghost predicate AckedOnce(job: Job, y: System)
    requires job.Valid()
  {
    && |y.s.received| == job.Count()
    && forall i :: 0 <= i < job.Count() ==>
         && (y.s.received[i] ==> HasWritten(y.r, i) && BlockReceived(i) !in y.toS)
         && (BlockReceived(i) in y.toS ==> HasWritten(y.r, i))
         && Occurs(y.toS, BlockReceived(i)) <= 1
         && Occurs(y.up, BlockReceived(i)) <= if HasWritten(y.r, i) then 1 else 0
  }

  /** In every interleaving, with any detected corruption and also after either side has failed: nobody panics; every
      acknowledgement, recorded or in flight, is for a written block; a block is acknowledged at most once in the whole
      run; a side that is done without an error means that the output equals the input. */
  lemma SafeTransfer(sum: Checksum, factory: Factory, job: Job, acts: seq<Action>, y: System)
    requires job.Valid() && Honest(factory) && Reaches(sum, factory, job, acts, y)
    ensures !y.crashed && AckedOnce(job, y)
    ensures y.rOk && y.r.phase == Finished ==> Delivered(job, y)
    ensures y.sOk && y.s.phase == Done ==> Delivered(job, y)
  {
    EveryRun(sum, factory, job, acts, y);
    forall i | 0 <= i < job.Count()
      ensures Acks(y, i) <= if HasWritten(y.r, i) then 1 else 0
      ensures BlockReceived(i) in y.toS <==> Occurs(y.toS, BlockReceived(i)) > 0
    {
      OccursIn(y.toS, BlockReceived(i));
    }
    if y.sOk && y.s.phase == Done {
      AllWrittenDelivers(job, y);
    }
    if y.rOk && y.r.phase == Finished {
      W.DoneIff(y.r.writer.value);
      AllWrittenDelivers(job, y);
    }
  }

  /** In every run, `DataSent` ends the transfer exactly when it overtakes a block that is still missing. */
  lemma DataSentIff(sum: Checksum, factory: Factory, job: Job, acts: seq<Action>, y: System)
    requires job.Valid() && Honest(factory) && Reaches(sum, factory, job, acts, y)
    requires Enabled(sum, y, ReceiverReads) && y.toR[0] == DataSent && y.s.reader.blockSize > 0
    ensures Apply(sum, factory, y, ReceiverReads).rOk <==> forall i :: 0 <= i < job.Count() ==> HasWritten(y.r, i)
  {
    EveryRun(sum, factory, job, acts, y);
    CountBounds(job.blockSize, |job.file|);
    if y.r.writer.Some? {
      R.DataSentIff(sum, factory, y.r);
      AllWrittenIff(job, y.r);
    } else {
      assert !HasWritten(y.r, 0);
    }
  }

  lemma AllWrittenIff(job: Job, r: ReceiverState)
    requires job.Valid() && R.Inv(r) && r.writer.Some? && Faithful(job, r)
    ensures r.writer.value.IsDone() <==> forall i :: 0 <= i < job.Count() ==> HasWritten(r, i)
  {
    W.DoneIff(r.writer.value);
    assert forall i :: 0 <= i < job.Count() ==> HasWritten(r, i) == r.writer.value.written[i];
  }
}
