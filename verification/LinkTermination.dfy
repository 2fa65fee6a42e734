/** Every run of sender and receiver ends, however blocks are corrupted and whatever fails. */
module LinkTermination {
  import opened Blocks
  import opened Counting
  import opened Transfer
  import opened Link
  import opened LinkSafety
  import opened LinkFailures
  import Runs
  import S = SenderRuns
  import R = ReceiverRuns
  import BR = BlockReader
  import W = BlockWriter

  // ---- what is still to be done ----

  predicate Spoilt(sum: Checksum, m: Message) {
    m.BlockData? && m.block.checksum != sum(m.block.index, m.block.data)
  }

  function SpoiltIn(sum: Checksum, ms: seq<Message>): nat {
    if ms == [] then 0 else SpoiltIn(sum, ms[..|ms| - 1]) + if Spoilt(sum, ms[|ms| - 1]) then 1 else 0
  }

  /** What the sender has to send: the header, the blocks that are queued or fresh, and the end. */
  function Due(job: Job, s: SenderState): int
    requires job.blockSize > 0
  {
    2 * (|s.reader.redo| + job.Count() - s.reader.next)
    + (if s.phase == Initialized then 2 else 0) + (if s.phase in {NeedDataReceived, Done} then 0 else 2)
  }

  /** What the receiver has to answer, leaving out blocks that it has not got yet. */
  function Owed(r: ReceiverState): nat {
    6 * ((if r.last.Some? then 1 else 0) + (if r.redo.Some? then |r.redo.value| else 0))
    + (if Young(r.phase) then 6 else 0) + (if r.phase == Finished then 0 else 6)
  }

  /** How many blocks the receiver has not got. */
  function Lacking(job: Job, r: ReceiverState): int
    requires job.blockSize > 0
  {
    job.Count() - if r.writer.None? then 0 else r.writer.value.count
  }

  /** Each kind of work weighs so much that doing it pays for the work that it makes. */
  function Work(sum: Checksum, job: Job, y: System): int
    requires job.blockSize > 0
  {
    6 * job.Count() * Lacking(job, y.r) + Owed(y.r) + Due(job, y.s) + 6 * SpoiltIn(sum, y.toR) + |y.toR| + 5 * |y.toS|
  }

  lemma {:induction false} SpoiltConcat(sum: Checksum, a: seq<Message>, b: seq<Message>)
    ensures SpoiltIn(sum, a + b) == SpoiltIn(sum, a) + SpoiltIn(sum, b)
    decreases |b|
  {
    if b == [] {
      assert a + b == a;
    } else {
      SpoiltConcat(sum, a, b[..|b| - 1]);
      assert (a + b)[..|a + b| - 1] == a + b[..|b| - 1];
    }
  }

  lemma SpoiltOne(sum: Checksum, m: Message)
    ensures SpoiltIn(sum, [m]) == if Spoilt(sum, m) then 1 else 0
  {
    assert [m][..0] == [];
  }

  lemma SpoiltHead(sum: Checksum, ms: seq<Message>)
    requires ms != []
    ensures SpoiltIn(sum, ms) == (if Spoilt(sum, ms[0]) then 1 else 0) + SpoiltIn(sum, ms[1..])
  {
    assert ms == [ms[0]] + ms[1..];
    SpoiltConcat(sum, [ms[0]], ms[1..]);
    SpoiltOne(sum, ms[0]);
  }

  lemma SpoiltSet(sum: Checksum, ms: seq<Message>, k: nat, m: Message)
    requires k < |ms|
    ensures SpoiltIn(sum, ms[k := m])
         == SpoiltIn(sum, ms) + (if Spoilt(sum, m) then 1 else 0) - if Spoilt(sum, ms[k]) then 1 else 0
  {
    var a, b := ms[..k], ms[k + 1..];
    assert ms == a + [ms[k]] + b && ms[k := m] == a + [m] + b;
    SpoiltConcat(sum, a + [ms[k]], b);
    SpoiltConcat(sum, a, [ms[k]]);
    SpoiltConcat(sum, a + [m], b);
    SpoiltConcat(sum, a, [m]);
    SpoiltOne(sum, ms[k]);
    SpoiltOne(sum, m);
  }

  // ---- the two ends ----

  lemma SenderWriteWorks(sum: Checksum, job: Job, s: SenderState)
    requires job.Valid() && SenderOk(job, s) && SenderCanWrite(s.phase)
    ensures var (s', o) := SenderWrite(sum, s);
            && o.Emit? && !Spoilt(sum, o.message) && Due(job, s') + 2 <= Due(job, s)
            && s'.reader.next <= job.Count()
  {
    S.WriteKeeps(sum, s);
    BR.NextServesHead(sum, s.reader);
  }

  lemma SenderReadWorks(job: Job, s: SenderState, m: Message)
    requires job.Valid() && SenderOk(job, s) && s.phase != Done && Up(job, m)
    ensures var (s', o) := SenderRead(s, m);
            o != Panic && !o.Emit? && Due(job, s') <= Due(job, s) + 4 && s'.reader.next == s.reader.next
  {
    S.ReadKeeps(s, m);
  }

  lemma ReceiverWriteWorks(r: ReceiverState)
    requires R.Inv(r) && r.phase !in {SendingAbort, GivenUp} && ReceiverCanWrite(r.phase)
    ensures var (r', o) := ReceiverWrite(r); o.Emit? && Owed(r') + 6 <= Owed(r) && r'.writer == r.writer
  {
    R.WriteKeeps(r);
  }

  lemma ReceiverReadWorks(sum: Checksum, factory: Factory, job: Job, r: ReceiverState, m: Message)
    requires job.Valid() && Honest(factory) && ReceiverOk(r) && Faithful(job, r) && Down(sum, job, m)
    requires !ReceiverCanWrite(r.phase) && r.phase != Finished
    ensures var (r', o) := ReceiverRead(sum, factory, r, m);
            && o != Panic && !o.Emit?
            && Lacking(job, r') <= Lacking(job, r)
            && (Lacking(job, r') == Lacking(job, r) ==> Owed(r') <= Owed(r) + if Spoilt(sum, m) then 6 else 0)
            && Owed(r') <= Owed(r) + 6 * job.Count()
  {
    CountBounds(job.blockSize, |job.file|);
    R.ReadKeeps(sum, factory, r, m);
    if m.BlockData? && r.phase == NeedBlock {
      StatusOf(sum, r.writer.value, m.block);
    }
  }

  lemma LackingBounds(job: Job, r: ReceiverState)
    requires job.Valid() && Faithful(job, r) && (r.writer.Some? ==> r.writer.value.Valid())
    ensures 0 <= Lacking(job, r) <= job.Count()
  {
    if r.writer.Some? {
      W.DoneIff(r.writer.value);
    }
  }

  lemma ReceiverReadLacks(sum: Checksum, factory: Factory, job: Job, r: ReceiverState, m: Message)
    requires job.Valid() && Honest(factory) && ReceiverOk(r) && Faithful(job, r) && Down(sum, job, m)
    requires !ReceiverCanWrite(r.phase) && r.phase != Finished
    ensures 0 <= Lacking(job, ReceiverRead(sum, factory, r, m).0)
  {
    ReceiverReadsDown(sum, factory, job, r, m);
    var (r', o) := ReceiverRead(sum, factory, r, m);
    if o == Quiet {
      LackingBounds(job, r');
    } else if r.writer.Some? {
      LackingBounds(job, r);
    }
  }

  // ---- every action ----

  /** The state after a move of the sender or the receiver. */
  lemma SenderWroteWork(sum: Checksum, job: Job, y: System, s: SenderState, m: Message)
    requires job.Valid() && Due(job, s) + 2 <= Due(job, y.s) && !Spoilt(sum, m)
    ensures Work(sum, job, y.(s := s, toR := y.toR + [m], down := y.down + [m])) + 1 <= Work(sum, job, y)
  {
    SpoiltConcat(sum, y.toR, [m]);
    SpoiltOne(sum, m);
  }

  lemma ReceiverHasReadWork(sum: Checksum, job: Job, y: System, r: ReceiverState, ok: bool)
    requires job.Valid() && y.toR != [] && 0 <= Lacking(job, r) <= Lacking(job, y.r)
    requires Lacking(job, r) == Lacking(job, y.r) ==> Owed(r) <= Owed(y.r) + if Spoilt(sum, y.toR[0]) then 6 else 0
    requires Owed(r) <= Owed(y.r) + 6 * job.Count()
    ensures Work(sum, job, y.(r := r, toR := y.toR[1..], rOk := ok)) + 1 <= Work(sum, job, y)
  {
    SpoiltHead(sum, y.toR);
    if Lacking(job, r) < Lacking(job, y.r) {
      MulMono(Lacking(job, r) + 1, Lacking(job, y.r), 6 * job.Count());
    }
  }

  lemma SenderWriteLowers(sum: Checksum, factory: Factory, job: Job, y: System)
    requires Inv(sum, job, y) && Enabled(sum, y, SenderWrites) && y.s.reader.blockSize > 0
    ensures var z := Apply(sum, factory, y, SenderWrites);
            Work(sum, job, z) + 1 <= Work(sum, job, y) && z.s.reader.next <= job.Count() && z.r == y.r
  {
    SenderWriteWorks(sum, job, y.s);
    var (s, o) := SenderWrite(sum, y.s);
    SenderWroteWork(sum, job, y, s, o.message);
  }

  lemma SenderReadLowers(sum: Checksum, factory: Factory, job: Job, y: System)
    requires Inv(sum, job, y) && Enabled(sum, y, SenderReads) && y.s.reader.blockSize > 0
    ensures var z := Apply(sum, factory, y, SenderReads);
            Work(sum, job, z) + 1 <= Work(sum, job, y) && z.s.reader.next == y.s.reader.next && z.r == y.r
  {
    SenderReadWorks(job, y.s, y.toS[0]);
  }

  lemma ReceiverWriteLowers(sum: Checksum, factory: Factory, job: Job, y: System)
    requires Inv(sum, job, y) && Enabled(sum, y, ReceiverWrites) && y.s.reader.blockSize > 0
    ensures var z := Apply(sum, factory, y, ReceiverWrites);
            Work(sum, job, z) + 1 <= Work(sum, job, y) && z.s == y.s && z.r.writer == y.r.writer
  {
    ReceiverWriteWorks(y.r);
  }

  lemma ReceiverReadLowers(sum: Checksum, factory: Factory, job: Job, y: System)
    requires Inv(sum, job, y) && Honest(factory) && Enabled(sum, y, ReceiverReads) && y.s.reader.blockSize > 0
    ensures var z := Apply(sum, factory, y, ReceiverReads);
            Work(sum, job, z) + 1 <= Work(sum, job, y) && z.s == y.s && 0 <= Lacking(job, z.r)
  {
    ReceiverReadWorks(sum, factory, job, y.r, y.toR[0]);
    ReceiverReadLacks(sum, factory, job, y.r, y.toR[0]);
    var (r, o) := ReceiverRead(sum, factory, y.r, y.toR[0]);
    ReceiverHasReadWork(sum, job, y, r, o == Quiet);
  }

  lemma CorruptAdds(sum: Checksum, factory: Factory, job: Job, y: System, a: Action)
    requires job.Valid() && a.Corrupt? && Enabled(sum, y, a) && y.s.reader.blockSize > 0
    ensures var z := Apply(sum, factory, y, a);
            Work(sum, job, z) == Work(sum, job, y) + 6 * (z.spoiled - y.spoiled) && z.s == y.s && z.r == y.r
  {
    var b := y.toR[a.at].block;
    SpoiltSet(sum, y.toR, a.at, BlockData(Block(b.index, a.data, a.checksum)));
  }

  function MovesIn(acts: seq<Action>): nat {
    if acts == [] then 0 else MovesIn(acts[..|acts| - 1]) + Cost(acts[|acts| - 1])
  }

  /** The moves so far and the work that is left are bounded by the work at the start and the corruptions. */
  ghost predicate Budget(sum: Checksum, job: Job, moves: nat, y: System) {
    && Inv(sum, job, y) && y.s.reader.next <= job.Count() && 0 <= Lacking(job, y.r)
    && moves + Work(sum, job, y) <= Work(sum, job, Start(job)) + 6 * y.spoiled
  }

  lemma ApplyBudget(sum: Checksum, factory: Factory, job: Job, moves: nat, y: System, a: Action)
    requires Budget(sum, job, moves, y) && Honest(factory) && Enabled(sum, y, a)
    ensures Budget(sum, job, moves + Cost(a), Apply(sum, factory, y, a))
  {
    ApplyInv(sum, factory, job, y, a);
    match a
    case SenderWrites => SenderWriteLowers(sum, factory, job, y);
    case SenderReads => SenderReadLowers(sum, factory, job, y);
    case ReceiverWrites => ReceiverWriteLowers(sum, factory, job, y);
    case ReceiverReads => ReceiverReadLowers(sum, factory, job, y);
    case Corrupt(_, _, _) => CorruptAdds(sum, factory, job, y, a);
  }

  function Cost(a: Action): nat {
    if a.Corrupt? then 0 else 1
  }

  lemma MovesSnoc(before: seq<Action>, a: Action)
    ensures MovesIn(before + [a]) == MovesIn(before) + Cost(a)
  {
    assert (before + [a])[..|before|] == before;
  }

  /** Induction over runs with the number of moves. */
  lemma MovesInduction(start: System, next: (System, Action, System) -> bool, inv: (nat, System) -> bool,
                       acts: seq<Action>, y: System)
    requires inv(0, start) && Runs.Reaches(start, next, acts, y)
    requires forall n: nat, x, a, z :: inv(n, x) && next(x, a, z) ==> inv(n + Cost(a), z)
    ensures inv(MovesIn(acts), y)
  {
    var counted: (seq<Action>, System) -> bool := (before, x) => inv(MovesIn(before), x);
    assert MovesIn([]) == 0;
    forall before, x, a, z | counted(before, x) && next(x, a, z)
      ensures counted(before + [a], z)
    {
      assert inv(MovesIn(before), x);
      MovesSnoc(before, a);
    }
    Runs.RunInduction(start, next, counted, acts, y);
  }

  lemma StartBudget(sum: Checksum, job: Job)
    requires job.Valid()
    ensures Budget(sum, job, 0, Start(job))
  {
    StartInv(sum, job);
  }

  lemma EveryRunBudget(sum: Checksum, factory: Factory, job: Job, acts: seq<Action>, y: System)
    requires job.Valid() && Honest(factory) && Reaches(sum, factory, job, acts, y)
    ensures Budget(sum, job, MovesIn(acts), y)
  {
    var next := (x, a, z) => Step(sum, factory, x, a, z);
    var inv := (n: nat, x) => Budget(sum, job, n, x);
    StartBudget(sum, job);
    forall n: nat, x, a, z | inv(n, x) && next(x, a, z)
      ensures inv(n + Cost(a), z)
    {
      ApplyBudget(sum, factory, job, n, x, a);
    }
    MovesInduction(Start(job), next, inv, acts, y);
  }

  /** A run over a file of n blocks with c corruptions has at most 6n^2 + 2n + 16 + 6c moves. When nothing but a
      corruption can happen any more, a side has failed or the file was delivered and both sides are done. */
  lemma EveryRunEnds(sum: Checksum, factory: Factory, job: Job, acts: seq<Action>, y: System)
    requires job.Valid() && Honest(factory) && Reaches(sum, factory, job, acts, y)
    ensures var n := job.Count(); MovesIn(acts) <= 6 * n * n + 2 * n + 16 + 6 * y.spoiled
    ensures (forall a: Action :: Enabled(sum, y, a) ==> a.Corrupt?) ==>
              !y.sOk || !y.rOk || (Complete(y) && Delivered(job, y))
  {
    EveryRunBudget(sum, factory, job, acts, y);
    StartWork(sum, job);
    WorkIsLeft(sum, job, y);
    SafeTransfer(sum, factory, job, acts, y);
    if y.sOk && y.rOk && !Complete(y) {
      NeverStuck(sum, factory, job, acts, y);
    }
  }

  lemma StartWork(sum: Checksum, job: Job)
    requires job.Valid()
    ensures Work(sum, job, Start(job)) == 6 * job.Count() * job.Count() + 2 * job.Count() + 16
  {
  }

  lemma WorkIsLeft(sum: Checksum, job: Job, y: System)
    requires job.Valid() && y.s.reader.next <= job.Count() && 0 <= Lacking(job, y.r)
    ensures 0 <= Work(sum, job, y)
  {
    MulMono(0, Lacking(job, y.r), 6 * job.Count());
  }
}
