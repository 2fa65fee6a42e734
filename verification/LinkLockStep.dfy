/** Lock-step runs: the sender writes only when everything is drained. Any number of corrupted blocks is repaired. */
module LinkLockStep {
  import opened Blocks
  import opened Counting
  import opened Transfer
  import opened Link
  import Runs
  import BR = BlockReader
  import W = BlockWriter
  import Clean = LinkCleanRuns
  import Safety = LinkSafety

  /** Where a lock-step run is: which message is on its way, and whether block `i` has to be sent again. */
  datatype Spot =
    | Begin | HeaderSent | AckDue | AckTold
    | Idle(i: nat, again: bool)
    | Sent(i: nat, bad: bool) | Due(i: nat, bad: bool) | Told(i: nat, bad: bool)
    | EndSent | EndDue | EndTold | Over

  ghost predicate SenderIs(job: Job, s: SenderState, phase: SenderPhase, next: nat, redo: seq<nat>, acked: nat)
    requires job.Valid()
  {
    && s.phase == phase && s.metadata == job.name
    && s.reader == BR.ReaderState(job.file, job.blockSize, next, redo)
    && Clean.FirstSet(s.received, job.Count(), acked) && s.count == acked
  }

  ghost predicate ReceiverIs(job: Job, r: ReceiverState, phase: ReceiverPhase, next: nat)
    requires job.Valid()
  {
    && r.phase == phase && r.next == next
    && r.writer.Some? && Clean.WriterAt(job, next, r.writer.value)
    && (phase != HandleBlock ==> r.last.None? && r.redo.None?)
  }

  /** The sender's phase once the reader has nothing queued and `next` blocks are out. */
  function Resting(n: nat, next: nat): SenderPhase {
    if next == n then Transferred else InProgress
  }

  function Waits(n: nat, next: nat): ReceiverPhase {
    if next == n then NeedDataSent else NeedBlock
  }

  /** The block on the wire: intact, or shown to be damaged by its checksum. */
  ghost predicate Carries(sum: Checksum, job: Job, m: Message, i: nat, bad: bool)
    requires job.Valid()
  {
    && m.BlockData? && m.block.index == i
    && |m.block.data| == |Range(job.file, job.blockSize, i)|
    && (bad <==> m.block.checksum != sum(i, m.block.data))
    && (!bad ==> m.block == BR.FileBlock(sum, job.file, job.blockSize, i))
  }

  ghost predicate BlockDue(job: Job, r: ReceiverState, i: nat, bad: bool)
    requires job.Valid()
  {
    if bad then ReceiverIs(job, r, HandleBlock, i) && r.last.None? && r.redo == Some([i])
    else ReceiverIs(job, r, HandleBlock, i + 1) && r.last.Some? && r.last.value.index == i && r.redo.None?
  }

  ghost predicate Shape(sum: Checksum, job: Job, spot: Spot, y: System)
    requires job.Valid()
  {
    var n := job.Count();
    match spot
    case Begin => SenderIs(job, y.s, Initialized, 0, [], 0) && y.r == NEW_RECEIVER && y.toR == [] && y.toS == []
    case HeaderSent =>
      && SenderIs(job, y.s, InPrologue, 0, [], 0) && y.r == NEW_RECEIVER
      && y.toR == [Header(Some(job.name), |job.file|, job.blockSize)] && y.toS == []
    case AckDue =>
      SenderIs(job, y.s, InPrologue, 0, [], 0) && ReceiverIs(job, y.r, SendAcknowledge, 0) && y.toR == [] && y.toS == []
    case AckTold =>
      && SenderIs(job, y.s, InPrologue, 0, [], 0) && ReceiverIs(job, y.r, NeedBlock, 0)
      && y.toR == [] && y.toS == [Acknowledge]
    case Idle(i, again) =>
      && i <= n && (again ==> i < n)
      && (if again then SenderIs(job, y.s, InProgress, i + 1, [i], i) else SenderIs(job, y.s, Resting(n, i), i, [], i))
      && ReceiverIs(job, y.r, Waits(n, i), i) && y.toR == [] && y.toS == []
    case Sent(i, bad) =>
      && i < n && SenderIs(job, y.s, Resting(n, i + 1), i + 1, [], i) && ReceiverIs(job, y.r, NeedBlock, i)
      && |y.toR| == 1 && Carries(sum, job, y.toR[0], i, bad) && y.toS == []
    case Due(i, bad) =>
      && i < n && SenderIs(job, y.s, Resting(n, i + 1), i + 1, [], i) && BlockDue(job, y.r, i, bad)
      && y.toR == [] && y.toS == []
    case Told(i, bad) =>
      && i < n && SenderIs(job, y.s, Resting(n, i + 1), i + 1, [], i)
      && (if bad then ReceiverIs(job, y.r, NeedBlock, i) else ReceiverIs(job, y.r, Waits(n, i + 1), i + 1))
      && y.toR == [] && y.toS == [if bad then RedoBlock(i) else BlockReceived(i)]
    case EndSent =>
      && SenderIs(job, y.s, NeedDataReceived, n, [], n) && ReceiverIs(job, y.r, NeedDataSent, n)
      && y.toR == [DataSent] && y.toS == []
    case EndDue =>
      && SenderIs(job, y.s, NeedDataReceived, n, [], n) && ReceiverIs(job, y.r, SendDataReceived, n)
      && y.toR == [] && y.toS == []
    case EndTold =>
      && SenderIs(job, y.s, NeedDataReceived, n, [], n) && ReceiverIs(job, y.r, Finished, n)
      && y.toR == [] && y.toS == [DataReceived]
    case Over =>
      SenderIs(job, y.s, Done, n, [], n) && ReceiverIs(job, y.r, Finished, n) && y.toR == [] && y.toS == []
  }

  // ---- the two ends ----

  lemma WritesBlock(sum: Checksum, job: Job, s: SenderState, i: nat, again: bool)
    requires job.Valid() && i < job.Count()
    requires if again then SenderIs(job, s, InProgress, i + 1, [i], i) else SenderIs(job, s, InProgress, i, [], i)
    ensures var (s', o) := SenderWrite(sum, s);
            && o == Emit(BlockData(BR.FileBlock(sum, job.file, job.blockSize, i)))
            && SenderIs(job, s', Resting(job.Count(), i + 1), i + 1, [], i)
  {
    Clean.ReaderDoneAt(job, i);
    Clean.ReaderDoneAt(job, i + 1);
  }

  lemma ReadsAck(job: Job, s: SenderState, i: nat)
    requires job.Valid() && i < job.Count() && SenderIs(job, s, Resting(job.Count(), i + 1), i + 1, [], i)
    ensures var (s', o) := SenderRead(s, BlockReceived(i));
            o == Quiet && SenderIs(job, s', Resting(job.Count(), i + 1), i + 1, [], i + 1)
  {
  }

  /** Also when the sender has already sent its last block and is in `Transferred`. */
  lemma ReadsRedo(job: Job, s: SenderState, i: nat)
    requires job.Valid() && i < job.Count() && SenderIs(job, s, Resting(job.Count(), i + 1), i + 1, [], i)
    ensures var (s', o) := SenderRead(s, RedoBlock(i));
            o == Quiet && SenderIs(job, s', InProgress, i + 1, [i], i)
  {
    NoWrap(job.blockSize, |job.file|, i);
    InFileIff(job.blockSize, |job.file|, i);
  }

  lemma ReadsBlock(sum: Checksum, job: Job, r: ReceiverState, m: Message, i: nat, bad: bool)
    requires job.Valid() && i < job.Count() && ReceiverIs(job, r, NeedBlock, i) && Carries(sum, job, m, i, bad)
    ensures var (r', o) := AcceptBlock(sum, r, m.block);
            o == Quiet && BlockDue(job, r', i, bad)
  {
    NoWrap(job.blockSize, |job.file|, i);
    W.WriteEffect(sum, r.writer.value, m.block);
    InFileIff(job.blockSize, |job.file|, i);
  }

  lemma WritesReply(job: Job, r: ReceiverState, i: nat, bad: bool)
    requires job.Valid() && i < job.Count() && BlockDue(job, r, i, bad)
    ensures var (r', o) := ReceiverWrite(r);
            && o == Emit(if bad then RedoBlock(i) else BlockReceived(i))
            && (if bad then ReceiverIs(job, r', NeedBlock, i)
                else ReceiverIs(job, r', Waits(job.Count(), i + 1), i + 1))
  {
  }

  // ---- the account of what was sent ----

  function BlocksIn(ms: seq<Message>): nat {
    if ms == [] then 0 else BlocksIn(ms[..|ms| - 1]) + if ms[|ms| - 1].BlockData? then 1 else 0
  }

  function RedosIn(ms: seq<Message>): nat {
    if ms == [] then 0 else RedosIn(ms[..|ms| - 1]) + if ms[|ms| - 1].RedoBlock? then 1 else 0
  }

  lemma CountSnoc(ms: seq<Message>, m: Message)
    ensures BlocksIn(ms + [m]) == BlocksIn(ms) + if m.BlockData? then 1 else 0
    ensures RedosIn(ms + [m]) == RedosIn(ms) + if m.RedoBlock? then 1 else 0
  {
    assert (ms + [m])[..|ms + [m]| - 1] == ms;
  }

  /** Transmissions of blocks that arrive, or are about to arrive, intact. */
  function Intact(n: nat, spot: Spot): nat {
    match spot
    case Idle(i, _) => i
    case Sent(i, bad) => if bad then i else i + 1
    case Due(i, bad) => if bad then i else i + 1
    case Told(i, bad) => if bad then i else i + 1
    case EndSent => n case EndDue => n case EndTold => n case Over => n
    case _ => 0
  }

  /** Messages of the sender other than blocks. */
  function Frame(spot: Spot): nat {
    if spot == Begin then 0 else if spot in {EndSent, EndDue, EndTold, Over} then 2 else 1
  }

  /** Messages of the receiver other than redo requests. */
  function Replies(n: nat, spot: Spot): nat {
    match spot
    case AckTold => 1
    case Idle(i, _) => 1 + i
    case Sent(i, _) => 1 + i
    case Due(i, _) => 1 + i
    case Told(i, bad) => if bad then 1 + i else 2 + i
    case EndSent => 1 + n case EndDue => 1 + n
    case EndTold => 2 + n case Over => 2 + n
    case _ => 0
  }

  /** A redo request that is still to be written. */
  function Owed(spot: Spot): nat {
    if (spot.Sent? || spot.Due?) && spot.bad then 1 else 0
  }

  /** Every corrupted block cost one more block down and one redo request up, and nothing else. */
  ghost predicate Ledger(n: nat, spot: Spot, y: System) {
    && BlocksIn(y.down) == Intact(n, spot) + y.spoiled
    && |y.down| == BlocksIn(y.down) + Frame(spot)
    && RedosIn(y.up) + Owed(spot) == y.spoiled
    && |y.up| == RedosIn(y.up) + Replies(n, spot)
  }

  ghost predicate At(sum: Checksum, job: Job, spot: Spot, y: System) {
    && job.Valid() && y.sOk && y.rOk && !y.crashed
    && Shape(sum, job, spot, y)
    && Ledger(job.Count(), spot, y)
  }

  function Move(n: nat, spot: Spot): Spot {
    match spot
    case Begin => HeaderSent
    case HeaderSent => AckDue
    case AckDue => AckTold
    case AckTold => Idle(0, false)
    case Idle(i, _) => if i == n then EndSent else Sent(i, false)
    case Sent(i, bad) => Due(i, bad)
    case Due(i, bad) => Told(i, bad)
    case Told(i, bad) => Idle(if bad then i else i + 1, bad)
    case EndSent => EndDue
    case EndDue => EndTold
    case EndTold => Over
    case Over => Over
  }

  /** The sender writes only after the receiver's answers are drained. */
  predicate Tidy(y: System, a: Action) {
    a == SenderWrites ==> y.toR == [] && y.toS == [] && !ReceiverCanWrite(y.r.phase)
  }

  // ---- one step: what each side computes ----

  ghost predicate SenderWrote(sum: Checksum, job: Job, spot: Spot, s: SenderState, m: Message)
    requires job.Valid()
  {
    var n := job.Count();
    if spot.Begin? then
      SenderIs(job, s, InPrologue, 0, [], 0) && m == Header(Some(job.name), |job.file|, job.blockSize)
    else if spot.Idle? && spot.i < n then
      SenderIs(job, s, Resting(n, spot.i + 1), spot.i + 1, [], spot.i) && Carries(sum, job, m, spot.i, false)
    else
      spot == Idle(n, false) && SenderIs(job, s, NeedDataReceived, n, [], n) && m == DataSent
  }

  ghost predicate SenderHasRead(job: Job, spot: Spot, s: SenderState)
    requires job.Valid()
  {
    var n := job.Count();
    if spot.AckTold? then SenderIs(job, s, InProgress, 0, [], 0)
    else if spot.Told? && spot.bad then SenderIs(job, s, InProgress, spot.i + 1, [spot.i], spot.i)
    else if spot.Told? then SenderIs(job, s, Resting(n, spot.i + 1), spot.i + 1, [], spot.i + 1)
    else spot.EndTold? && SenderIs(job, s, Done, n, [], n)
  }

  ghost predicate ReceiverWrote(job: Job, spot: Spot, r: ReceiverState, m: Message)
    requires job.Valid()
  {
    var n := job.Count();
    if spot.AckDue? then ReceiverIs(job, r, NeedBlock, 0) && m == Acknowledge
    else if spot.Due? && spot.bad then ReceiverIs(job, r, NeedBlock, spot.i) && m == RedoBlock(spot.i)
    else if spot.Due? then ReceiverIs(job, r, Waits(n, spot.i + 1), spot.i + 1) && m == BlockReceived(spot.i)
    else spot.EndDue? && ReceiverIs(job, r, Finished, n) && m == DataReceived
  }

  ghost predicate ReceiverHasRead(job: Job, spot: Spot, r: ReceiverState)
    requires job.Valid()
  {
    if spot.HeaderSent? then ReceiverIs(job, r, SendAcknowledge, 0)
    else if spot.Sent? then BlockDue(job, r, spot.i, spot.bad)
    else spot.EndSent? && ReceiverIs(job, r, SendDataReceived, job.Count())
  }

  lemma SenderWriteGives(sum: Checksum, job: Job, spot: Spot, y: System)
    requires job.Valid() && Shape(sum, job, spot, y) && SenderCanWrite(y.s.phase)
    requires y.toR == [] && y.toS == [] && !ReceiverCanWrite(y.r.phase)
    ensures var (s, o) := SenderWrite(sum, y.s); o.Emit? && SenderWrote(sum, job, spot, s, o.message)
  {
    CountBounds(job.blockSize, |job.file|);
    if spot.Idle? && spot.i < job.Count() {
      WritesBlock(sum, job, y.s, spot.i, spot.again);
    }
  }

  lemma SenderReadGives(sum: Checksum, job: Job, spot: Spot, y: System)
    requires job.Valid() && Shape(sum, job, spot, y) && y.toS != []
    ensures var (s, o) := SenderRead(y.s, y.toS[0]); o == Quiet && SenderHasRead(job, spot, s) && |y.toS| == 1
  {
    CountBounds(job.blockSize, |job.file|);
    if spot.Told? {
      if spot.bad { ReadsRedo(job, y.s, spot.i); } else { ReadsAck(job, y.s, spot.i); }
    }
  }

  lemma ReceiverWriteGives(sum: Checksum, job: Job, spot: Spot, y: System)
    requires job.Valid() && Shape(sum, job, spot, y) && ReceiverCanWrite(y.r.phase)
    ensures var (r, o) := ReceiverWrite(y.r); o.Emit? && ReceiverWrote(job, spot, r, o.message)
  {
    if spot.Due? {
      WritesReply(job, y.r, spot.i, spot.bad);
    }
  }

  lemma HeaderRead(sum: Checksum, factory: Factory, job: Job)
    requires job.Valid() && Honest(factory) && factory(job.name, |job.file|).Some?
    ensures var (r, o) := ReceiverRead(sum, factory, NEW_RECEIVER, Header(Some(job.name), |job.file|, job.blockSize));
            o == Quiet && ReceiverIs(job, r, SendAcknowledge, 0)
  {
    W.NewWriterValid(factory(job.name, |job.file|).value, job.blockSize);
  }

  lemma ReceiverReadGives(sum: Checksum, factory: Factory, job: Job, spot: Spot, y: System)
    requires job.Valid() && Shape(sum, job, spot, y) && y.toR != []
    requires Honest(factory) && factory(job.name, |job.file|).Some?
    ensures var (r, o) := ReceiverRead(sum, factory, y.r, y.toR[0]);
            o == Quiet && ReceiverHasRead(job, spot, r) && |y.toR| == 1
  {
    if spot.HeaderSent? {
      HeaderRead(sum, factory, job);
    } else if spot.Sent? {
      ReadsBlock(sum, job, y.r, y.toR[0], spot.i, spot.bad);
    }
  }

  // ---- one step: where it leads ----

  lemma SenderWriteMoves(sum: Checksum, job: Job, spot: Spot, y: System, s: SenderState, m: Message)
    requires job.Valid() && Shape(sum, job, spot, y) && SenderWrote(sum, job, spot, s, m)
    ensures Shape(sum, job, Move(job.Count(), spot), y.(s := s, toR := y.toR + [m], down := y.down + [m]))
  {
  }

  lemma SenderReadMoves(sum: Checksum, job: Job, spot: Spot, y: System, s: SenderState)
    requires job.Valid() && Shape(sum, job, spot, y) && SenderHasRead(job, spot, s)
    ensures Shape(sum, job, Move(job.Count(), spot), y.(s := s, toS := []))
  {
    CountBounds(job.blockSize, |job.file|);
  }

  lemma ReceiverWriteMoves(sum: Checksum, job: Job, spot: Spot, y: System, r: ReceiverState, m: Message)
    requires job.Valid() && Shape(sum, job, spot, y) && ReceiverWrote(job, spot, r, m)
    ensures Shape(sum, job, Move(job.Count(), spot), y.(r := r, toS := y.toS + [m], up := y.up + [m]))
  {
  }

  lemma ReceiverReadMoves(sum: Checksum, job: Job, spot: Spot, y: System, r: ReceiverState)
    requires job.Valid() && Shape(sum, job, spot, y) && ReceiverHasRead(job, spot, r)
    ensures Shape(sum, job, Move(job.Count(), spot), y.(r := r, toR := []))
  {
  }

  lemma SenderWriteLedger(sum: Checksum, job: Job, spot: Spot, y: System, s: SenderState, m: Message)
    requires job.Valid() && Ledger(job.Count(), spot, y) && SenderWrote(sum, job, spot, s, m)
    requires spot.Idle? ==> spot.i <= job.Count()
    ensures Ledger(job.Count(), Move(job.Count(), spot), y.(s := s, toR := y.toR + [m], down := y.down + [m]))
  {
    CountSnoc(y.down, m);
  }

  lemma ReceiverWriteLedger(job: Job, spot: Spot, y: System, r: ReceiverState, m: Message)
    requires job.Valid() && Ledger(job.Count(), spot, y) && ReceiverWrote(job, spot, r, m)
    ensures Ledger(job.Count(), Move(job.Count(), spot), y.(r := r, toS := y.toS + [m], up := y.up + [m]))
  {
    CountSnoc(y.up, m);
  }

  /** Reading puts nothing on the wire. */
  lemma ReadLedger(n: nat, spot: Spot, y: System)
    requires Ledger(n, spot, y)
    requires spot in {HeaderSent, AckTold, EndSent, EndTold} || spot.Sent? || spot.Told?
    ensures forall z: System :: z.down == y.down && z.up == y.up && z.spoiled == y.spoiled ==>
              Ledger(n, Move(n, spot), z)
  {
  }

  lemma CorruptMoves(sum: Checksum, factory: Factory, job: Job, spot: Spot, y: System, a: Action)
    requires At(sum, job, spot, y) && Enabled(sum, y, a) && a.Corrupt?
    ensures spot.Sent? && At(sum, job, Sent(spot.i, true), Apply(sum, factory, y, a))
  {
    assert spot.HeaderSent? || spot.Sent? || spot.EndSent?;
  }

  lemma SenderWriteLeads(sum: Checksum, factory: Factory, job: Job, spot: Spot, y: System)
    requires At(sum, job, spot, y) && Enabled(sum, y, SenderWrites) && Tidy(y, SenderWrites)
    ensures At(sum, job, Move(job.Count(), spot), Apply(sum, factory, y, SenderWrites)) && spot != Over
  {
    SenderWriteGives(sum, job, spot, y);
    var (s, o) := SenderWrite(sum, y.s);
    SenderWriteMoves(sum, job, spot, y, s, o.message);
    SenderWriteLedger(sum, job, spot, y, s, o.message);
  }

  lemma SenderReadLeads(sum: Checksum, factory: Factory, job: Job, spot: Spot, y: System)
    requires At(sum, job, spot, y) && Enabled(sum, y, SenderReads)
    ensures At(sum, job, Move(job.Count(), spot), Apply(sum, factory, y, SenderReads)) && spot != Over
  {
    SenderReadGives(sum, job, spot, y);
    SenderReadMoves(sum, job, spot, y, SenderRead(y.s, y.toS[0]).0);
    ReadLedger(job.Count(), spot, y);
    assert y.toS[1..] == [];
  }

  lemma ReceiverWriteLeads(sum: Checksum, factory: Factory, job: Job, spot: Spot, y: System)
    requires At(sum, job, spot, y) && Enabled(sum, y, ReceiverWrites)
    ensures At(sum, job, Move(job.Count(), spot), Apply(sum, factory, y, ReceiverWrites)) && spot != Over
  {
    ReceiverWriteGives(sum, job, spot, y);
    var (r, o) := ReceiverWrite(y.r);
    ReceiverWriteMoves(sum, job, spot, y, r, o.message);
    ReceiverWriteLedger(job, spot, y, r, o.message);
  }

  lemma ReceiverReadLeads(sum: Checksum, factory: Factory, job: Job, spot: Spot, y: System)
    requires At(sum, job, spot, y) && Enabled(sum, y, ReceiverReads)
    requires Honest(factory) && factory(job.name, |job.file|).Some?
    ensures At(sum, job, Move(job.Count(), spot), Apply(sum, factory, y, ReceiverReads)) && spot != Over
  {
    ReceiverReadGives(sum, factory, job, spot, y);
    ReceiverReadMoves(sum, job, spot, y, ReceiverRead(sum, factory, y.r, y.toR[0]).0);
    ReadLedger(job.Count(), spot, y);
    assert y.toR[1..] == [];
  }

  // ---- whole runs ----

  /** Steps taken to get to a spot: four per message of the sender. */
  function Clock(n: nat, spot: Spot, spoiled: nat): int {
    match spot
    case Begin => 4 * spoiled
    case HeaderSent => 4 * spoiled + 1
    case AckDue => 4 * spoiled + 2
    case AckTold => 4 * spoiled + 3
    case Idle(i, _) => 4 * (1 + i + spoiled)
    case Sent(i, bad) => 4 * (1 + i + spoiled - if bad then 1 else 0) + 1
    case Due(i, bad) => 4 * (1 + i + spoiled - if bad then 1 else 0) + 2
    case Told(i, bad) => 4 * (1 + i + spoiled - if bad then 1 else 0) + 3
    case EndSent => 4 * (1 + n + spoiled) + 1
    case EndDue => 4 * (1 + n + spoiled) + 2
    case EndTold => 4 * (1 + n + spoiled) + 3
    case Over => 4 * (2 + n + spoiled)
  }

  ghost predicate OnTrack(sum: Checksum, job: Job, moves: nat, y: System) {
    exists spot :: At(sum, job, spot, y) && moves == Clock(job.Count(), spot, y.spoiled)
  }

  function Moves(acts: seq<Action>): nat {
    if acts == [] then 0 else Moves(acts[..|acts| - 1]) + if acts[|acts| - 1].Corrupt? then 0 else 1
  }

  ghost predicate TidyStep(sum: Checksum, factory: Factory, y: System, a: Action, z: System) {
    Step(sum, factory, y, a, z) && Tidy(y, a)
  }

  /** Reached in lock-step: by enabled actions, where the sender writes only once everything is drained. */
  ghost predicate TidyReaches(sum: Checksum, factory: Factory, job: Job, acts: seq<Action>, y: System)
    requires job.Valid()
  {
    Runs.Reaches(Start(job), (x, a, z) => TidyStep(sum, factory, x, a, z), acts, y)
  }

  lemma StartOnTrack(sum: Checksum, job: Job)
    requires job.Valid()
    ensures OnTrack(sum, job, 0, Start(job))
  {
    assert At(sum, job, Begin, Start(job)) && Clock(job.Count(), Begin, 0) == 0;
  }

  lemma Tick(sum: Checksum, job: Job, moves: nat, spot: Spot, z: System)
    requires job.Valid() && spot != Over && (spot.Idle? ==> spot.i <= job.Count())
    requires spot.Told? ==> spot.i < job.Count()
    requires moves == Clock(job.Count(), spot, z.spoiled) && At(sum, job, Move(job.Count(), spot), z)
    ensures OnTrack(sum, job, moves + 1, z)
  {
    assert Clock(job.Count(), Move(job.Count(), spot), z.spoiled) == moves + 1;
  }

  lemma SenderWriteOnTrack(sum: Checksum, factory: Factory, job: Job, moves: nat, y: System)
    requires OnTrack(sum, job, moves, y) && Enabled(sum, y, SenderWrites) && Tidy(y, SenderWrites)
    requires y.s.reader.blockSize > 0
    ensures OnTrack(sum, job, moves + 1, Apply(sum, factory, y, SenderWrites))
  {
    var spot :| At(sum, job, spot, y) && moves == Clock(job.Count(), spot, y.spoiled);
    SenderWriteLeads(sum, factory, job, spot, y);
    Tick(sum, job, moves, spot, Apply(sum, factory, y, SenderWrites));
  }

  lemma SenderReadOnTrack(sum: Checksum, factory: Factory, job: Job, moves: nat, y: System)
    requires OnTrack(sum, job, moves, y) && Enabled(sum, y, SenderReads) && y.s.reader.blockSize > 0
    ensures OnTrack(sum, job, moves + 1, Apply(sum, factory, y, SenderReads))
  {
    var spot :| At(sum, job, spot, y) && moves == Clock(job.Count(), spot, y.spoiled);
    SenderReadLeads(sum, factory, job, spot, y);
    Tick(sum, job, moves, spot, Apply(sum, factory, y, SenderReads));
  }

  lemma ReceiverWriteOnTrack(sum: Checksum, factory: Factory, job: Job, moves: nat, y: System)
    requires OnTrack(sum, job, moves, y) && Enabled(sum, y, ReceiverWrites) && y.s.reader.blockSize > 0
    ensures OnTrack(sum, job, moves + 1, Apply(sum, factory, y, ReceiverWrites))
  {
    var spot :| At(sum, job, spot, y) && moves == Clock(job.Count(), spot, y.spoiled);
    ReceiverWriteLeads(sum, factory, job, spot, y);
    Tick(sum, job, moves, spot, Apply(sum, factory, y, ReceiverWrites));
  }

  lemma ReceiverReadOnTrack(sum: Checksum, factory: Factory, job: Job, moves: nat, y: System)
    requires OnTrack(sum, job, moves, y) && Enabled(sum, y, ReceiverReads) && y.s.reader.blockSize > 0
    requires Honest(factory) && factory(job.name, |job.file|).Some?
    ensures OnTrack(sum, job, moves + 1, Apply(sum, factory, y, ReceiverReads))
  {
    var spot :| At(sum, job, spot, y) && moves == Clock(job.Count(), spot, y.spoiled);
    ReceiverReadLeads(sum, factory, job, spot, y);
    Tick(sum, job, moves, spot, Apply(sum, factory, y, ReceiverReads));
  }

  lemma CorruptOnTrack(sum: Checksum, factory: Factory, job: Job, moves: nat, y: System, a: Action)
    requires OnTrack(sum, job, moves, y) && Enabled(sum, y, a) && a.Corrupt? && y.s.reader.blockSize > 0
    ensures OnTrack(sum, job, moves, Apply(sum, factory, y, a))
  {
    var spot :| At(sum, job, spot, y) && moves == Clock(job.Count(), spot, y.spoiled);
    CorruptMoves(sum, factory, job, spot, y, a);
    var z := Apply(sum, factory, y, a);
    assert z.spoiled == y.spoiled + if spot.bad then 0 else 1;
  }

  /** Induction over lock-step runs, for any statement about the number of steps and the system. */
  lemma TidyInduction(sum: Checksum, factory: Factory, job: Job, inv: (nat, System) -> bool, acts: seq<Action>,
                      y: System)
    requires job.Valid() && inv(0, Start(job))
    requires forall m: nat, x, a :: inv(m, x) && Enabled(sum, x, a) && Tidy(x, a) && x.s.reader.blockSize > 0 ==>
                                 inv(if a.Corrupt? then m else m + 1, Apply(sum, factory, x, a))
    requires TidyReaches(sum, factory, job, acts, y)
    ensures inv(Moves(acts), y)
  {
    var next := (x, a, z) => TidyStep(sum, factory, x, a, z);
    var counted: (seq<Action>, System) -> bool := (before, x) => inv(Moves(before), x);
    assert Moves([]) == 0;
    forall before, x, a, z | counted(before, x) && next(x, a, z)
      ensures counted(before + [a], z)
    {
      assert (before + [a])[..|before + [a]| - 1] == before;
      var m := Moves(before);
      assert inv(m, x) && Step(sum, factory, x, a, z) && Tidy(x, a);
      assert inv(if a.Corrupt? then m else m + 1, z);
      assert Moves(before + [a]) == if a.Corrupt? then m else m + 1;
    }
    Runs.RunInduction(Start(job), next, counted, acts, y);
    assert counted(acts, y);
  }

  lemma EveryTidyRun(sum: Checksum, factory: Factory, job: Job, acts: seq<Action>, y: System)
    requires job.Valid() && Honest(factory) && factory(job.name, |job.file|).Some?
    requires TidyReaches(sum, factory, job, acts, y)
    ensures OnTrack(sum, job, Moves(acts), y)
  {
    var inv: (nat, System) -> bool := (m: nat, x: System) => OnTrack(sum, job, m, x);
    StartOnTrack(sum, job);
    forall m: nat, x, a | inv(m, x) && Enabled(sum, x, a) && Tidy(x, a) && x.s.reader.blockSize > 0
      ensures inv(if a.Corrupt? then m else m + 1, Apply(sum, factory, x, a))
    {
      match a
      case SenderWrites => SenderWriteOnTrack(sum, factory, job, m, x);
      case SenderReads => SenderReadOnTrack(sum, factory, job, m, x);
      case ReceiverWrites => ReceiverWriteOnTrack(sum, factory, job, m, x);
      case ReceiverReads => ReceiverReadOnTrack(sum, factory, job, m, x);
      case Corrupt(_, _, _) => CorruptOnTrack(sum, factory, job, m, x, a);
    }
    TidyInduction(sum, factory, job, inv, acts, y);
    assert inv(Moves(acts), y);
  }

  /** Until both sides are done, exactly one side can move. */
  lemma CanMove(sum: Checksum, job: Job, spot: Spot, y: System)
    requires At(sum, job, spot, y)
    ensures Complete(y) <==> spot == Over
    ensures spot != Over ==> exists a: Action :: !a.Corrupt? && Enabled(sum, y, a) && Tidy(y, a)
  {
    CountBounds(job.blockSize, |job.file|);
    if spot.Begin? || spot.Idle? {
      assert Enabled(sum, y, SenderWrites) && Tidy(y, SenderWrites);
    } else if spot.AckTold? || spot.Told? || spot.EndTold? {
      assert Enabled(sum, y, SenderReads) && Tidy(y, SenderReads);
    } else if spot.AckDue? || spot.Due? || spot.EndDue? {
      assert Enabled(sum, y, ReceiverWrites) && Tidy(y, ReceiverWrites);
    } else if spot != Over {
      assert Enabled(sum, y, ReceiverReads) && Tidy(y, ReceiverReads);
    }
  }

  /** In lock-step, whatever blocks are corrupted: no call fails; the run can go on until both sides are done, which
      happens after exactly 4 (n + 2 + spoiled) steps; then the output is the input and every corruption has cost one
      more block and one redo request. */
  lemma LockStepDelivers(sum: Checksum, factory: Factory, job: Job, acts: seq<Action>, y: System)
    requires job.Valid() && Honest(factory) && factory(job.name, |job.file|).Some?
    requires TidyReaches(sum, factory, job, acts, y)
    ensures y.sOk && y.rOk && !y.crashed
    ensures !Complete(y) ==> exists a: Action :: !a.Corrupt? && Enabled(sum, y, a) && Tidy(y, a)
    ensures Moves(acts) <= 4 * (job.Count() + 2 + y.spoiled)
    ensures Complete(y) <==> Moves(acts) == 4 * (job.Count() + 2 + y.spoiled)
    ensures Complete(y) ==>
              && Safety.Delivered(job, y)
              && BlocksIn(y.down) == job.Count() + y.spoiled && RedosIn(y.up) == y.spoiled
              && |y.down| == |y.up| == job.Count() + 2 + y.spoiled
  {
    EveryTidyRun(sum, factory, job, acts, y);
    var spot :| At(sum, job, spot, y) && Moves(acts) == Clock(job.Count(), spot, y.spoiled);
    CanMove(sum, job, spot, y);
    ClockBound(sum, job, spot, y);
    Runs.Subrun(Start(job), (x, a, z) => TidyStep(sum, factory, x, a, z), (x, a, z) => Step(sum, factory, x, a, z),
                acts, y);
    Safety.SafeTransfer(sum, factory, job, acts, y);
  }

  lemma ClockBound(sum: Checksum, job: Job, spot: Spot, y: System)
    requires At(sum, job, spot, y)
    ensures Clock(job.Count(), spot, y.spoiled) <= 4 * (job.Count() + 2 + y.spoiled)
    ensures Clock(job.Count(), spot, y.spoiled) == 4 * (job.Count() + 2 + y.spoiled) <==> spot == Over
  {
  }
}
