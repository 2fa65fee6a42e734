/** Runs of sender and receiver that fail although every corruption was detected, for every file that is large
    enough. */
module LinkWitnesses {
  import opened Blocks
  import opened Counting
  import opened Transfer
  import opened Link
  import opened LinkSafety
  import opened LinkFailures
  import Runs
  import S = SenderRuns
  import R = ReceiverRuns
  import BR = BlockReader
  import W = BlockWriter

  // ---- the sender, one call at a time ----

  ghost predicate SAt(job: Job, s: SenderState, phase: SenderPhase, next: nat, redo: seq<nat>, acked: seq<bool>) {
    && job.Valid() && SenderOk(job, s)
    && s.phase == phase && s.reader.next == next && s.reader.redo == redo && s.received == acked
  }

  function FileData(sum: Checksum, job: Job, i: nat): Message {
    BlockData(BR.FileBlock(sum, job.file, job.blockSize, i))
  }

  /** Where the sender is after it has sent a block. */
  function After(job: Job, next: nat, redo: seq<nat>): SenderPhase
    requires job.blockSize > 0
  {
    if redo == [] && next == job.Count() then Transferred else InProgress
  }

  lemma SendsFresh(sum: Checksum, job: Job, s: SenderState, next: nat, acked: seq<bool>)
    requires SAt(job, s, InProgress, next, [], acked) && next < job.Count()
    ensures var (s', o) := SenderWrite(sum, s);
            o == Emit(FileData(sum, job, next)) && SAt(job, s', After(job, next + 1, []), next + 1, [], acked)
  {
    S.WriteKeeps(sum, s);
    BR.NextServesHead(sum, s.reader);
    BR.DoneIff(s.reader);
    BR.DoneIff(SenderWrite(sum, s).0.reader);
  }

  lemma SendsAgain(sum: Checksum, job: Job, s: SenderState, next: nat, i: nat, acked: seq<bool>)
    requires SAt(job, s, InProgress, next, [i], acked)
    ensures var (s', o) := SenderWrite(sum, s);
            o == Emit(FileData(sum, job, i)) && SAt(job, s', After(job, next, []), next, [], acked)
  {
    S.WriteKeeps(sum, s);
    BR.NextServesHead(sum, s.reader);
    BR.DoneIff(s.reader);
    BR.DoneIff(SenderWrite(sum, s).0.reader);
  }

  lemma TakesAck(job: Job, s: SenderState, phase: SenderPhase, next: nat, redo: seq<nat>, acked: seq<bool>, i: nat)
    requires SAt(job, s, phase, next, redo, acked) && Acking(phase) && i < |acked| && !acked[i]
    ensures var (s', o) := SenderRead(s, BlockReceived(i));
            o == Quiet && SAt(job, s', phase, next, redo, acked[i := true])
  {
    S.ReadKeeps(s, BlockReceived(i));
    SenderReadsUp(job, s, BlockReceived(i));
  }

  lemma TakesRedo(job: Job, s: SenderState, phase: SenderPhase, next: nat, acked: seq<bool>, i: nat)
    requires SAt(job, s, phase, next, [], acked) && Acking(phase) && i < next && i < |acked| && !acked[i]
    ensures var (s', o) := SenderRead(s, RedoBlock(i));
            o == Quiet && SAt(job, s', InProgress, next, [i], acked)
  {
    S.ReadKeeps(s, RedoBlock(i));
    SenderReadsUp(job, s, RedoBlock(i));
    BR.RedoQueuesOnce(s.reader, i);
  }

  // ---- the receiver, one call at a time ----

  ghost predicate RAt(job: Job, r: ReceiverState, phase: ReceiverPhase, written: seq<bool>, next: nat,
                      last: Option<nat>, redo: Option<seq<nat>>)
  {
    && job.Valid() && ReceiverOk(r) && Faithful(job, r) && r.writer.Some?
    && r.phase == phase && r.writer.value.written == written && r.next == next && r.redo == redo
    && (if last.None? then r.last.None? else r.last.Some? && r.last.value.index == last.value)
  }

  lemma TakesBlock(sum: Checksum, factory: Factory, job: Job, r: ReceiverState, written: seq<bool>, next: nat, i: nat)
    requires Honest(factory) && RAt(job, r, NeedBlock, written, next, None, None) && i < |written| && !written[i]
    requires next <= i
    ensures var (r', o) := ReceiverRead(sum, factory, r, FileData(sum, job, i));
            && o == Quiet
            && (i == next ==> RAt(job, r', HandleBlock, written[i := true], next + 1, Some(i), None))
            && (i != next ==> RAt(job, r', HandleBlock, written[i := true], next, Some(i), Some(Gap(next, i))))
  {
    var b := BR.FileBlock(sum, job.file, job.blockSize, i);
    ReceiverReadsDown(sum, factory, job, r, BlockData(b));
    StatusOf(sum, r.writer.value, b);
  }

  /** A block with the file's bytes and a checksum that is not theirs. */
  function BadBlock(sum: Checksum, job: Job, i: nat): Block {
    var b := BR.FileBlock(sum, job.file, job.blockSize, i);
    b.(checksum := b.checksum + [0])
  }

  lemma TakesBadBlock(sum: Checksum, factory: Factory, job: Job, r: ReceiverState, written: seq<bool>, next: nat,
                      i: nat)
    requires Honest(factory) && RAt(job, r, NeedBlock, written, next, None, None) && i < |written| && !written[i]
    ensures var (r', o) := ReceiverRead(sum, factory, r, BlockData(BadBlock(sum, job, i)));
            o == Quiet && RAt(job, r', HandleBlock, written, next, None, Some([i]))
  {
    var b := BadBlock(sum, job, i);
    assert |b.checksum| == |sum(i, b.data)| + 1;
    ReceiverReadsDown(sum, factory, job, r, BlockData(b));
    StatusOf(sum, r.writer.value, b);
  }

  /** Where the receiver is after a reply. */
  function Then(written: seq<bool>, redo: Option<seq<nat>>): ReceiverPhase {
    if redo.Some? then HandleBlock else if false in written then NeedBlock else NeedDataSent
  }

  lemma Acknowledges(job: Job, r: ReceiverState, written: seq<bool>, next: nat, i: nat, redo: Option<seq<nat>>)
    requires RAt(job, r, HandleBlock, written, next, Some(i), redo)
    ensures var (r', o) := ReceiverWrite(r);
            o == Emit(BlockReceived(i)) && RAt(job, r', Then(written, redo), written, next, None, redo)
  {
    R.WriteKeeps(r);
    W.DoneIff(r.writer.value);
  }

  lemma AsksAgain(job: Job, r: ReceiverState, written: seq<bool>, next: nat, i: nat)
    requires RAt(job, r, HandleBlock, written, next, None, Some([i]))
    ensures var (r', o) := ReceiverWrite(r);
            o == Emit(RedoBlock(i)) && RAt(job, r', Then(written, None), written, next, None, None)
  {
    R.WriteKeeps(r);
    W.DoneIff(r.writer.value);
  }

  // ---- runs ----

  /** A run in which nobody has failed, and what is in flight. */
  ghost predicate Live(sum: Checksum, factory: Factory, job: Job, acts: seq<Action>, y: System, toR: seq<Message>,
                       toS: seq<Message>)
  {
    && job.Valid() && Honest(factory) && Reaches(sum, factory, job, acts, y) && y.s.reader.blockSize > 0
    && y.sOk && y.rOk && !y.crashed && y.toR == toR && y.toS == toS
  }

  lemma Go(sum: Checksum, factory: Factory, job: Job, acts: seq<Action>, y: System, a: Action)
    returns (more: seq<Action>, z: System)
    requires job.Valid() && Reaches(sum, factory, job, acts, y) && Enabled(sum, y, a) && y.s.reader.blockSize > 0
    ensures Reaches(sum, factory, job, more, z) && z == Apply(sum, factory, y, a)
  {
    z := Apply(sum, factory, y, a);
    Runs.Snoc(Start(job), (x, a, z) => Step(sum, factory, x, a, z), acts, y, a, z);
    more := acts + [a];
  }

  lemma SWrites(sum: Checksum, factory: Factory, job: Job, acts: seq<Action>, y: System, toR: seq<Message>,
                toS: seq<Message>, s: SenderState, m: Message)
    returns (more: seq<Action>, z: System)
    requires Live(sum, factory, job, acts, y, toR, toS) && y.s.phase != Done && SenderCanWrite(y.s.phase)
    requires SenderWrite(sum, y.s) == (s, Emit(m)) && s.reader.blockSize > 0
    ensures Live(sum, factory, job, more, z, toR + [m], toS) && z.s == s && z.r == y.r && z.down == y.down + [m]
  {
    more, z := Go(sum, factory, job, acts, y, SenderWrites);
  }

  lemma SReads(sum: Checksum, factory: Factory, job: Job, acts: seq<Action>, y: System, toR: seq<Message>,
               toS: seq<Message>, s: SenderState)
    returns (more: seq<Action>, z: System)
    requires Live(sum, factory, job, acts, y, toR, toS) && y.s.phase != Done && toS != []
    requires SenderRead(y.s, toS[0]) == (s, Quiet) && s.reader.blockSize > 0
    ensures Live(sum, factory, job, more, z, toR, toS[1..]) && z.s == s && z.r == y.r && z.down == y.down
  {
    more, z := Go(sum, factory, job, acts, y, SenderReads);
  }

  lemma RWrites(sum: Checksum, factory: Factory, job: Job, acts: seq<Action>, y: System, toR: seq<Message>,
                toS: seq<Message>, r: ReceiverState, m: Message)
    returns (more: seq<Action>, z: System)
    requires Live(sum, factory, job, acts, y, toR, toS) && y.r.phase != Finished && ReceiverCanWrite(y.r.phase)
    requires ReceiverWrite(y.r) == (r, Emit(m))
    ensures Live(sum, factory, job, more, z, toR, toS + [m]) && z.s == y.s && z.r == r && z.down == y.down
  {
    more, z := Go(sum, factory, job, acts, y, ReceiverWrites);
  }

  lemma RReads(sum: Checksum, factory: Factory, job: Job, acts: seq<Action>, y: System, toR: seq<Message>,
               toS: seq<Message>, r: ReceiverState)
    returns (more: seq<Action>, z: System)
    requires Live(sum, factory, job, acts, y, toR, toS) && toR != []
    requires y.r.phase != Finished && !ReceiverCanWrite(y.r.phase)
    requires ReceiverRead(sum, factory, y.r, toR[0]) == (r, Quiet)
    ensures Live(sum, factory, job, more, z, toR[1..], toS) && z.s == y.s && z.r == r && z.down == y.down
  {
    more, z := Go(sum, factory, job, acts, y, ReceiverReads);
  }

  /** The first message to the receiver, a block of the file, is corrupted. */
  lemma Spoils(sum: Checksum, factory: Factory, job: Job, acts: seq<Action>, y: System, i: nat, rest: seq<Message>,
               toS: seq<Message>)
    returns (more: seq<Action>, z: System)
    requires Live(sum, factory, job, acts, y, [FileData(sum, job, i)] + rest, toS)
    ensures Live(sum, factory, job, more, z, [BlockData(BadBlock(sum, job, i))] + rest, toS)
    ensures z.s == y.s && z.r == y.r && z.down == y.down
  {
    var b := BadBlock(sum, job, i);
    assert |b.checksum| == |sum(i, b.data)| + 1;
    more, z := Go(sum, factory, job, acts, y, Corrupt(0, b.data, b.checksum));
    assert z.toR == [BlockData(b)] + rest;
  }

  function NoneOf(job: Job): seq<bool>
    requires job.blockSize > 0
  {
    seq(job.Count(), _ => false)
  }

  /** The four calls that open a transfer. */
  lemma OpeningCalls(sum: Checksum, factory: Factory, job: Job, s: SenderState)
    requires job.Valid() && Honest(factory) && factory(job.name, |job.file|).Some?
    requires s == NewSender(job.name, job.file, job.blockSize)
    ensures var m := Header(Some(job.name), |job.file|, job.blockSize);
            var s1 := s.(phase := InPrologue);
            var w := W.NewWriter(factory(job.name, |job.file|).value, job.blockSize);
            var r1 := ReceiverState(SendAcknowledge, Some(w), 0, None, None);
            && SenderWrite(sum, s) == (s1, Emit(m)) && ReceiverRead(sum, factory, NEW_RECEIVER, m) == (r1, Quiet)
            && ReceiverWrite(r1) == (r1.(phase := NeedBlock), Emit(Acknowledge))
            && SenderRead(s1, Acknowledge) == (s.(phase := InProgress), Quiet)
            && r1.writer.value.written == NoneOf(job) == s.received
  {
  }

  /** After the header and its acknowledgement. */
  lemma Opening(sum: Checksum, factory: Factory, job: Job) returns (acts: seq<Action>, y: System)
    requires job.Valid() && Honest(factory) && factory(job.name, |job.file|).Some?
    ensures Live(sum, factory, job, acts, y, [], []) && DataSent !in y.down
    ensures SAt(job, y.s, InProgress, 0, [], NoneOf(job)) && RAt(job, y.r, NeedBlock, NoneOf(job), 0, None, None)
  {
    acts, y := [], Start(job);
    var m := Header(Some(job.name), |job.file|, job.blockSize);
    OpeningCalls(sum, factory, job, y.s);
    acts, y := SWrites(sum, factory, job, acts, y, [], [], SenderWrite(sum, y.s).0, m);
    acts, y := RReads(sum, factory, job, acts, y, [m], [], ReceiverRead(sum, factory, y.r, m).0);
    acts, y := RWrites(sum, factory, job, acts, y, [], [], ReceiverWrite(y.r).0, Acknowledge);
    acts, y := SReads(sum, factory, job, acts, y, [], [Acknowledge], SenderRead(y.s, Acknowledge).0);
    EverySoundRun(sum, factory, job, acts, y);
  }

  /** A corrupted block 0 with block 1 behind it: the receiver asks for block 0 again, and once more for the gap that
      block 1 leaves. */
  lemma TwoBlocksSent(sum: Checksum, factory: Factory, job: Job) returns (acts: seq<Action>, y: System)
    requires job.Valid() && Honest(factory) && factory(job.name, |job.file|).Some? && job.Count() >= 2
    ensures Live(sum, factory, job, acts, y, [BlockData(BadBlock(sum, job, 0)), FileData(sum, job, 1)], [])
    ensures SAt(job, y.s, After(job, 2, []), 2, [], NoneOf(job)) && RAt(job, y.r, NeedBlock, NoneOf(job), 0, None, None)
    ensures DataSent !in y.down
  {
    acts, y := Opening(sum, factory, job);
    var m0, m1 := FileData(sum, job, 0), FileData(sum, job, 1);
    SendsFresh(sum, job, y.s, 0, NoneOf(job));
    acts, y := SWrites(sum, factory, job, acts, y, [], [], SenderWrite(sum, y.s).0, m0);
    SendsFresh(sum, job, y.s, 1, NoneOf(job));
    acts, y := SWrites(sum, factory, job, acts, y, [m0], [], SenderWrite(sum, y.s).0, m1);
    assert [m0] + [m1] == [m0, m1];
    acts, y := Spoils(sum, factory, job, acts, y, 0, [m1], []);
    assert [BlockData(BadBlock(sum, job, 0))] + [m1] == [BlockData(BadBlock(sum, job, 0)), m1];
  }

  lemma AskedOnce(sum: Checksum, factory: Factory, job: Job) returns (acts: seq<Action>, y: System)
    requires job.Valid() && Honest(factory) && factory(job.name, |job.file|).Some? && job.Count() >= 2
    ensures Live(sum, factory, job, acts, y, [FileData(sum, job, 1)], [RedoBlock(0)])
    ensures SAt(job, y.s, After(job, 2, []), 2, [], NoneOf(job)) && RAt(job, y.r, NeedBlock, NoneOf(job), 0, None, None)
    ensures DataSent !in y.down
  {
    acts, y := TwoBlocksSent(sum, factory, job);
    var n, bad, m1 := NoneOf(job), BlockData(BadBlock(sum, job, 0)), FileData(sum, job, 1);
    assert n[0] == false;
    TakesBadBlock(sum, factory, job, y.r, n, 0, 0);
    acts, y := RReads(sum, factory, job, acts, y, [bad, m1], [], ReceiverRead(sum, factory, y.r, bad).0);
    AsksAgain(job, y.r, n, 0, 0);
    acts, y := RWrites(sum, factory, job, acts, y, [m1], [], ReceiverWrite(y.r).0, RedoBlock(0));
  }

  lemma AskedTwice(sum: Checksum, factory: Factory, job: Job) returns (acts: seq<Action>, y: System)
    requires job.Valid() && Honest(factory) && factory(job.name, |job.file|).Some? && job.Count() >= 2
    ensures Live(sum, factory, job, acts, y, [], [RedoBlock(0), BlockReceived(1), RedoBlock(0)])
    ensures SAt(job, y.s, After(job, 2, []), 2, [], NoneOf(job))
    ensures RAt(job, y.r, NeedBlock, NoneOf(job)[1 := true], 0, None, None) && DataSent !in y.down
  {
    acts, y := AskedOnce(sum, factory, job);
    var n, m1, redo := NoneOf(job), FileData(sum, job, 1), RedoBlock(0);
    assert n[1] == false && n[1 := true][0] == false;
    TakesBlock(sum, factory, job, y.r, n, 0, 1);
    acts, y := RReads(sum, factory, job, acts, y, [m1], [redo], ReceiverRead(sum, factory, y.r, m1).0);
    assert Gap(0, 1) == [0];
    Acknowledges(job, y.r, n[1 := true], 0, 1, Some([0]));
    acts, y := RWrites(sum, factory, job, acts, y, [], [redo], ReceiverWrite(y.r).0, BlockReceived(1));
    AsksAgain(job, y.r, n[1 := true], 0, 0);
    acts, y := RWrites(sum, factory, job, acts, y, [], [redo, BlockReceived(1)], ReceiverWrite(y.r).0, redo);
  }

  /** For every file of at least two blocks there is a run in which one corrupted block makes the sender fail,
      because the receiver asks for it twice; the end of the data was never announced. */
  lemma DuplicateRedo(sum: Checksum, factory: Factory, job: Job) returns (acts: seq<Action>, y: System)
    requires job.Valid() && Honest(factory) && factory(job.name, |job.file|).Some? && job.Count() >= 2
    ensures Reaches(sum, factory, job, acts, y) && Enabled(sum, y, SenderReads) && DataSent !in y.down
    ensures y.s.reader.blockSize > 0 && SenderRead(y.s, y.toS[0]).1 == Fail(DuplicateRedoBlock)
  {
    acts, y := AskedTwice(sum, factory, job);
    var n, p, again := NoneOf(job), After(job, 2, []), RedoBlock(0);
    TakesRedo(job, y.s, p, 2, n, 0);
    acts, y := SReads(sum, factory, job, acts, y, [], [again, BlockReceived(1), again], SenderRead(y.s, again).0);
    TakesAck(job, y.s, InProgress, 2, [0], n, 1);
    acts, y := SReads(sum, factory, job, acts, y, [], [BlockReceived(1), again], SenderRead(y.s, BlockReceived(1)).0);
    RefusesQueued(job, y.s, InProgress, 2, n[1 := true], 0);
  }

  lemma RefusesQueued(job: Job, s: SenderState, phase: SenderPhase, next: nat, acked: seq<bool>, i: nat)
    requires SAt(job, s, phase, next, [i], acked) && Acking(phase) && i < next && i < |acked| && !acked[i]
    ensures SenderRead(s, RedoBlock(i)).1 == Fail(DuplicateRedoBlock)
  {
    BR.RedoQueuesOnce(s.reader, i);
  }

  /** For every file of one block: the end of the data overtakes the repair of the block. */
  lemma HastyEnd(sum: Checksum, factory: Factory, job: Job) returns (acts: seq<Action>, y: System)
    requires job.Valid() && Honest(factory) && factory(job.name, |job.file|).Some? && job.Count() == 1
    ensures Reaches(sum, factory, job, acts, y) && Enabled(sum, y, ReceiverReads) && y.toR == [DataSent]
    ensures y.toS == [RedoBlock(0)] && ReceiverRead(sum, factory, y.r, y.toR[0]).1 == Fail(UnexpectedMessage)
  {
    acts, y := Opening(sum, factory, job);
    var n, m0, bad := NoneOf(job), FileData(sum, job, 0), BlockData(BadBlock(sum, job, 0));
    assert n[0] == false;
    SendsFresh(sum, job, y.s, 0, n);
    acts, y := SWrites(sum, factory, job, acts, y, [], [], SenderWrite(sum, y.s).0, m0);
    acts, y := SWrites(sum, factory, job, acts, y, [m0], [], SenderWrite(sum, y.s).0, DataSent);
    acts, y := Spoils(sum, factory, job, acts, y, 0, [DataSent], []);
    TakesBadBlock(sum, factory, job, y.r, n, 0, 0);
    acts, y := RReads(sum, factory, job, acts, y, [bad, DataSent], [], ReceiverRead(sum, factory, y.r, bad).0);
    AsksAgain(job, y.r, n, 0, 0);
    acts, y := RWrites(sum, factory, job, acts, y, [DataSent], [], ReceiverWrite(y.r).0, RedoBlock(0));
  }

  lemma SentAgain(sum: Checksum, factory: Factory, job: Job) returns (acts: seq<Action>, y: System)
    requires job.Valid() && Honest(factory) && factory(job.name, |job.file|).Some? && job.Count() >= 2
    ensures Live(sum, factory, job, acts, y, [FileData(sum, job, 0)], [BlockReceived(1), RedoBlock(0)])
    ensures SAt(job, y.s, After(job, 2, []), 2, [], NoneOf(job))
    ensures RAt(job, y.r, NeedBlock, NoneOf(job)[1 := true], 0, None, None)
  {
    acts, y := AskedTwice(sum, factory, job);
    var n, p, rest := NoneOf(job), After(job, 2, []), [BlockReceived(1), RedoBlock(0)];
    assert n[0] == false;
    TakesRedo(job, y.s, p, 2, n, 0);
    acts, y := SReads(sum, factory, job, acts, y, [], [RedoBlock(0)] + rest, SenderRead(y.s, RedoBlock(0)).0);
    SendsAgain(sum, job, y.s, 2, 0, n);
    acts, y := SWrites(sum, factory, job, acts, y, [], rest, SenderWrite(sum, y.s).0, FileData(sum, job, 0));
  }

  /** Block 0 was sent again and is written, while the sender has yet to read the second request for it. */
  lemma Repaired(sum: Checksum, factory: Factory, job: Job) returns (acts: seq<Action>, y: System)
    requires job.Valid() && Honest(factory) && factory(job.name, |job.file|).Some? && job.Count() >= 2
    ensures Live(sum, factory, job, acts, y, [], [BlockReceived(1), RedoBlock(0), BlockReceived(0)])
    ensures SAt(job, y.s, After(job, 2, []), 2, [], NoneOf(job))
    ensures var w := NoneOf(job)[1 := true][0 := true]; RAt(job, y.r, Then(w, None), w, 1, None, None)
  {
    acts, y := SentAgain(sum, factory, job);
    var w, m0, rest := NoneOf(job)[1 := true], FileData(sum, job, 0), [BlockReceived(1), RedoBlock(0)];
    assert w[0] == false;
    TakesBlock(sum, factory, job, y.r, w, 0, 0);
    acts, y := RReads(sum, factory, job, acts, y, [m0], rest, ReceiverRead(sum, factory, y.r, m0).0);
    Acknowledges(job, y.r, w[0 := true], 1, 0, None);
    acts, y := RWrites(sum, factory, job, acts, y, [], rest, ReceiverWrite(y.r).0, BlockReceived(0));
  }

  /** The sender has taken the second request as well. */
  lemma QueuedAgain(sum: Checksum, factory: Factory, job: Job, acts: seq<Action>, y: System, toR: seq<Message>,
                    rest: seq<Message>, phase: SenderPhase, next: nat)
    returns (more: seq<Action>, z: System)
    requires Live(sum, factory, job, acts, y, toR, [BlockReceived(1), RedoBlock(0)] + rest)
    requires SAt(job, y.s, phase, next, [], NoneOf(job)) && Acking(phase) && next >= 2 && job.Count() >= 2
    ensures Live(sum, factory, job, more, z, toR, rest) && z.r == y.r
    ensures SAt(job, z.s, InProgress, next, [0], NoneOf(job)[1 := true])
  {
    var n := NoneOf(job);
    assert n[1] == false && n[1 := true][0] == false;
    TakesAck(job, y.s, phase, next, [], n, 1);
    more, z := SReads(sum, factory, job, acts, y, toR, [BlockReceived(1), RedoBlock(0)] + rest,
                      SenderRead(y.s, BlockReceived(1)).0);
    assert ([BlockReceived(1), RedoBlock(0)] + rest)[1..] == [RedoBlock(0)] + rest;
    TakesRedo(job, z.s, phase, next, n[1 := true], 0);
    more, z := SReads(sum, factory, job, more, z, toR, [RedoBlock(0)] + rest, SenderRead(z.s, RedoBlock(0)).0);
    assert ([RedoBlock(0)] + rest)[1..] == rest;
  }

  /** For every file of at least two blocks: the receiver is sent a block that it has written, and fails. */
  lemma BlockAgain(sum: Checksum, factory: Factory, job: Job) returns (acts: seq<Action>, y: System)
    requires job.Valid() && Honest(factory) && factory(job.name, |job.file|).Some? && job.Count() >= 2
    ensures Reaches(sum, factory, job, acts, y) && Enabled(sum, y, ReceiverReads) && y.toR[0] == FileData(sum, job, 0)
    ensures HasWritten(y.r, 0) && ReceiverRead(sum, factory, y.r, y.toR[0]).1.Fail?
  {
    acts, y := Repaired(sum, factory, job);
    var n := NoneOf(job);
    acts, y := QueuedAgain(sum, factory, job, acts, y, [], [BlockReceived(0)], After(job, 2, []), 2);
    SendsAgain(sum, job, y.s, 2, 0, n[1 := true]);
    acts, y :=
      SWrites(sum, factory, job, acts, y, [], [BlockReceived(0)], SenderWrite(sum, y.s).0, FileData(sum, job, 0));
    EverySoundRun(sum, factory, job, acts, y);
    ReceiverReadsInOrder(sum, factory, job, y);
    ReceiverReadsDown(sum, factory, job, y.r, y.toR[0]);
  }

  /** The receiver is done before the sender has read the second request. */
  lemma Ended(sum: Checksum, factory: Factory, job: Job) returns (acts: seq<Action>, y: System)
    requires job.Valid() && Honest(factory) && factory(job.name, |job.file|).Some? && job.Count() == 2
    ensures Live(sum, factory, job, acts, y, [],
                 [BlockReceived(1), RedoBlock(0)] + [BlockReceived(0), DataReceived])
    ensures SAt(job, y.s, NeedDataReceived, 2, [], NoneOf(job)) && y.r.phase == Finished
  {
    acts, y := Repaired(sum, factory, job);
    var rest := [BlockReceived(1), RedoBlock(0), BlockReceived(0)];
    acts, y := SWrites(sum, factory, job, acts, y, [], rest, SenderWrite(sum, y.s).0, DataSent);
    acts, y := RReads(sum, factory, job, acts, y, [DataSent], rest, ReceiverRead(sum, factory, y.r, DataSent).0);
    acts, y := RWrites(sum, factory, job, acts, y, [], rest, ReceiverWrite(y.r).0, DataReceived);
    assert rest + [DataReceived] == [BlockReceived(1), RedoBlock(0)] + [BlockReceived(0), DataReceived];
  }

  /** For every file of two blocks: the receiver is done and has the file, but the sender fails, because the second
      request has sent it back from waiting for the end. */
  lemma EndTooEarly(sum: Checksum, factory: Factory, job: Job) returns (acts: seq<Action>, y: System)
    requires job.Valid() && Honest(factory) && factory(job.name, |job.file|).Some? && job.Count() == 2
    ensures Reaches(sum, factory, job, acts, y) && Enabled(sum, y, SenderReads) && y.toS[0] == DataReceived
    ensures y.r.phase == Finished && Delivered(job, y)
    ensures y.s.reader.blockSize > 0 && SenderRead(y.s, y.toS[0]).1 == Fail(UnexpectedMessage)
  {
    acts, y := Ended(sum, factory, job);
    var n, rest := NoneOf(job), [BlockReceived(0), DataReceived];
    acts, y := QueuedAgain(sum, factory, job, acts, y, [], rest, NeedDataReceived, 2);
    assert n[1 := true][0] == false;
    TakesAck(job, y.s, InProgress, 2, [0], n[1 := true], 0);
    acts, y := SReads(sum, factory, job, acts, y, [], rest, SenderRead(y.s, BlockReceived(0)).0);
    EverySoundRun(sum, factory, job, acts, y);
    SafeTransfer(sum, factory, job, acts, y);
  }

  /** For every file of at least three blocks: the gap before block 2 names block 1, which is acknowledged by then. */
  lemma RedoForAcked(sum: Checksum, factory: Factory, job: Job) returns (acts: seq<Action>, y: System)
    requires job.Valid() && Honest(factory) && factory(job.name, |job.file|).Some? && job.Count() >= 3
    ensures Reaches(sum, factory, job, acts, y) && Enabled(sum, y, SenderReads)
    ensures y.s.reader.blockSize > 0 && SenderRead(y.s, y.toS[0]).1 == Fail(RedoForReceivedBlock)
  {
    acts, y := Repaired(sum, factory, job);
    var n, m2, rest := NoneOf(job), FileData(sum, job, 2), [BlockReceived(1), RedoBlock(0), BlockReceived(0)];
    var w := n[1 := true][0 := true];
    assert w[2] == false && w[2 := true][2] == true;
    SendsFresh(sum, job, y.s, 2, n);
    acts, y := SWrites(sum, factory, job, acts, y, [], rest, SenderWrite(sum, y.s).0, m2);
    TakesBlock(sum, factory, job, y.r, w, 1, 2);
    acts, y := RReads(sum, factory, job, acts, y, [m2], rest, ReceiverRead(sum, factory, y.r, m2).0);
    assert Gap(1, 2) == [1];
    Acknowledges(job, y.r, w[2 := true], 1, 2, Some([1]));
    acts, y := RWrites(sum, factory, job, acts, y, [], rest, ReceiverWrite(y.r).0, BlockReceived(2));
    AsksAgain(job, y.r, w[2 := true], 1, 1);
    acts, y := RWrites(sum, factory, job, acts, y, [], rest + [BlockReceived(2)], ReceiverWrite(y.r).0, RedoBlock(1));
    acts, y := ReadsOn(sum, factory, job, acts, y);
  }

  lemma ReadsOn(sum: Checksum, factory: Factory, job: Job, acts: seq<Action>, y: System)
    returns (more: seq<Action>, z: System)
    requires job.Valid() && job.Count() >= 3
    requires Live(sum, factory, job, acts, y, [],
                  [BlockReceived(1), RedoBlock(0), BlockReceived(0)] + [BlockReceived(2)] + [RedoBlock(1)])
    requires SAt(job, y.s, After(job, 3, []), 3, [], NoneOf(job))
    ensures Reaches(sum, factory, job, more, z) && Enabled(sum, z, SenderReads)
    ensures z.s.reader.blockSize > 0 && SenderRead(z.s, z.toS[0]).1 == Fail(RedoForReceivedBlock)
  {
    var n, end := NoneOf(job), [BlockReceived(0), BlockReceived(2), RedoBlock(1)];
    assert y.toS == [BlockReceived(1), RedoBlock(0)] + end;
    more, z := QueuedAgain(sum, factory, job, acts, y, [], end, After(job, 3, []), 3);
    TakesAck(job, z.s, InProgress, 3, [0], n[1 := true], 0);
    more, z := SReads(sum, factory, job, more, z, [], end, SenderRead(z.s, BlockReceived(0)).0);
    TakesAck(job, z.s, InProgress, 3, [0], n[1 := true][0 := true], 2);
    more, z := SReads(sum, factory, job, more, z, [], end[1..], SenderRead(z.s, BlockReceived(2)).0);
  }
}
