/** Runs without corruption: the state depends only on how often each side has read and written, so no schedule can
    fail, get stuck or run forever. */
module LinkCleanRuns {
  import opened Blocks
  import opened Counting
  import opened Transfer
  import opened Link
  import Runs
  import BR = BlockReader
  import W = BlockWriter
  import Safety = LinkSafety

  /** Messages written by the sender, read by the receiver, written by the receiver, read by the sender. */
  datatype Progress = Progress(k: nat, a: nat, b: nat, c: nat)
  {
    /** With `n` blocks: the receiver answers each message before it reads the next. */
    predicate Legal(n: nat) {
      c <= b <= a <= b + 1 && a <= k <= n + 2 && (k == n + 2 ==> c >= 1)
    }
  }

  function Least(x: int, y: nat): nat {
    if x < 0 then 0 else if x < y then x else y
  }

  /** The `j`-th message of the sender. */
  function Outgoing(sum: Checksum, job: Job, j: nat): Message
    requires job.Valid()
  {
    if j == 0 then Header(Some(job.name), |job.file|, job.blockSize)
    else if j <= job.Count() then BlockData(BR.FileBlock(sum, job.file, job.blockSize, j - 1))
    else DataSent
  }

  /** The `j`-th message of the receiver. */
  function Answer(job: Job, j: nat): Message
    requires job.Valid()
  {
    if j == 0 then Acknowledge else if j <= job.Count() then BlockReceived(j - 1) else DataReceived
  }

  /** Exactly the first `t` flags are set. */
  ghost predicate FirstSet(flags: seq<bool>, n: nat, t: nat) {
    |flags| == n && forall i :: 0 <= i < n ==> (flags[i] <==> i < t)
  }

  function SenderPhaseAt(n: nat, k: nat, c: nat): SenderPhase {
    if k == 0 then Initialized
    else if k <= n then (if c == 0 then InPrologue else InProgress)
    else if k == n + 1 then (if c == 0 then NeedAcknowledge else Transferred)
    else if c < n + 2 then NeedDataReceived else Done
  }

  /** The sender after `k` writes and `c` reads. */
  ghost predicate SenderAt(job: Job, k: nat, c: nat, s: SenderState)
    requires job.Valid()
  {
    && s.phase == SenderPhaseAt(job.Count(), k, c)
    && s.metadata == job.name
    && s.reader == BR.ReaderState(job.file, job.blockSize, Least(k - 1, job.Count()), [])
    && FirstSet(s.received, job.Count(), s.count)
    && s.count == Least(c - 1, job.Count())
  }

  function ReceiverPhaseAt(n: nat, a: nat, b: nat): ReceiverPhase {
    if a == 0 then Waiting
    else if a == 1 && b == 0 then SendAcknowledge
    else if a <= n + 1 && a > b then HandleBlock
    else if a <= n then NeedBlock
    else if a == n + 1 then NeedDataSent
    else if a > b then SendDataReceived else Finished
  }

  /** The writer after the first `t` blocks. */
  ghost predicate WriterAt(job: Job, t: nat, w: W.WriterState)
    requires job.Valid()
  {
    && w.Valid() && |w.out| == |job.file| && w.blockSize == job.blockSize
    && FirstSet(w.written, job.Count(), t) && w.count == t
  }

  /** The receiver after `a` reads and `b` writes. */
  ghost predicate ReceiverAt(job: Job, a: nat, b: nat, r: ReceiverState)
    requires job.Valid()
  {
    && r.phase == ReceiverPhaseAt(job.Count(), a, b)
    && r.next == Least(a - 1, job.Count())
    && r.redo.None?
    && (if a > 0 then r.writer.Some? && WriterAt(job, r.next, r.writer.value) else r.writer.None?)
    && (if r.phase == HandleBlock then r.last.Some? && r.last.value.index == a - 2 else r.last.None?)
  }

  /** The sender's messages from number `lo` up to `hi`. */
  function OutgoingFrom(sum: Checksum, job: Job, lo: nat, hi: nat): seq<Message>
    requires job.Valid() && lo <= hi
  {
    if lo == hi then [] else OutgoingFrom(sum, job, lo, hi - 1) + [Outgoing(sum, job, hi - 1)]
  }

  /** The receiver's messages from number `lo` up to `hi`. */
  function AnswersFrom(job: Job, lo: nat, hi: nat): seq<Message>
    requires job.Valid() && lo <= hi
  {
    if lo == hi then [] else AnswersFrom(job, lo, hi - 1) + [Answer(job, hi - 1)]
  }

  lemma {:induction false} OutgoingPop(sum: Checksum, job: Job, lo: nat, hi: nat)
    requires job.Valid() && lo < hi
    ensures var q := OutgoingFrom(sum, job, lo, hi);
            |q| == hi - lo && q[0] == Outgoing(sum, job, lo) && q[1..] == OutgoingFrom(sum, job, lo + 1, hi)
  {
    if lo + 1 < hi { OutgoingPop(sum, job, lo, hi - 1); }
  }

  lemma {:induction false} AnswersPop(job: Job, lo: nat, hi: nat)
    requires job.Valid() && lo < hi
    ensures var q := AnswersFrom(job, lo, hi);
            |q| == hi - lo && q[0] == Answer(job, lo) && q[1..] == AnswersFrom(job, lo + 1, hi)
  {
    if lo + 1 < hi { AnswersPop(job, lo, hi - 1); }
  }

  lemma {:induction false} WindowLengths(sum: Checksum, job: Job, lo: nat, hi: nat)
    requires job.Valid() && lo <= hi
    ensures |OutgoingFrom(sum, job, lo, hi)| == |AnswersFrom(job, lo, hi)| == hi - lo
  {
    if lo < hi { WindowLengths(sum, job, lo, hi - 1); }
  }

  /** The whole system is as the four counts say. */
  ghost predicate At(sum: Checksum, job: Job, p: Progress, y: System) {
    && job.Valid() && p.Legal(job.Count())
    && SenderAt(job, p.k, p.c, y.s)
    && ReceiverAt(job, p.a, p.b, y.r)
    && y.toR == OutgoingFrom(sum, job, p.a, p.k) && |y.toR| == p.k - p.a
    && y.toS == AnswersFrom(job, p.c, p.b) && |y.toS| == p.b - p.c
    && y.sOk && y.rOk && !y.crashed
    && y.down == OutgoingFrom(sum, job, 0, p.k) && y.up == AnswersFrom(job, 0, p.b)
  }

  lemma ReaderDoneAt(job: Job, t: nat)
    requires job.Valid() && t <= job.Count()
    ensures BR.ReaderState(job.file, job.blockSize, t, []).IsDone() <==> t == job.Count()
  {
    BR.DoneIff(BR.ReaderState(job.file, job.blockSize, t, []));
  }

  lemma SenderWriteAt(sum: Checksum, job: Job, k: nat, c: nat, s: SenderState)
    requires job.Valid() && SenderAt(job, k, c, s) && SenderCanWrite(s.phase) && c <= k
    ensures var (s', o) := SenderWrite(sum, s);
            o == Emit(Outgoing(sum, job, k)) && SenderAt(job, k + 1, c, s') && k <= job.Count() + 1
  {
    CountBounds(job.blockSize, |job.file|);
    if 1 <= k <= job.Count() {
      ReaderDoneAt(job, k - 1);
      ReaderDoneAt(job, k);
    }
  }

  lemma SenderReadAt(job: Job, k: nat, c: nat, s: SenderState)
    requires job.Valid() && SenderAt(job, k, c, s) && c < k <= job.Count() + 2 && (k == job.Count() + 2 ==> c >= 1)
    ensures var (s', o) := SenderRead(s, Answer(job, c));
            o == Quiet && SenderAt(job, k, c + 1, s')
  {
    CountBounds(job.blockSize, |job.file|);
  }

  lemma ReceiverWriteAt(job: Job, a: nat, b: nat, r: ReceiverState)
    requires job.Valid() && ReceiverAt(job, a, b, r) && a == b + 1 <= job.Count() + 2
    ensures var (r', o) := ReceiverWrite(r);
            o == Emit(Answer(job, b)) && ReceiverAt(job, a, b + 1, r')
  {
    CountBounds(job.blockSize, |job.file|);
  }

  lemma BlockReadAt(sum: Checksum, job: Job, a: nat, r: ReceiverState)
    requires job.Valid() && ReceiverAt(job, a, a, r) && 1 <= a <= job.Count()
    ensures var (r', o) := AcceptBlock(sum, r, BR.FileBlock(sum, job.file, job.blockSize, a - 1));
            o == Quiet && ReceiverAt(job, a + 1, a, r')
  {
    var b := BR.FileBlock(sum, job.file, job.blockSize, a - 1);
    NoWrap(job.blockSize, |job.file|, a - 1);
    W.WriteEffect(sum, r.writer.value, b);
  }

  lemma ReceiverReadAt(sum: Checksum, factory: Factory, job: Job, a: nat, r: ReceiverState)
    requires job.Valid() && Honest(factory) && factory(job.name, |job.file|).Some?
    requires ReceiverAt(job, a, a, r) && a <= job.Count() + 1
    ensures var (r', o) := ReceiverRead(sum, factory, r, Outgoing(sum, job, a));
            o == Quiet && ReceiverAt(job, a + 1, a, r')
  {
    CountBounds(job.blockSize, |job.file|);
    if a == 0 {
      var storage := factory(job.name, |job.file|).value;
      W.NewWriterValid(storage, job.blockSize);
    } else if a <= job.Count() {
      BlockReadAt(sum, job, a, r);
    }
  }

  // The counts move on; these four say nothing about how the new state was computed.

  lemma SenderWrote(sum: Checksum, job: Job, p: Progress, y: System, s: SenderState)
    requires job.Valid() && At(sum, job, p, y) && SenderAt(job, p.k + 1, p.c, s) && p.(k := p.k + 1).Legal(job.Count())
    ensures At(sum, job, p.(k := p.k + 1),
               y.(s := s, toR := y.toR + [Outgoing(sum, job, p.k)], down := y.down + [Outgoing(sum, job, p.k)]))
  {
  }

  lemma SenderHasRead(sum: Checksum, job: Job, p: Progress, y: System, s: SenderState)
    requires job.Valid() && At(sum, job, p, y) && SenderAt(job, p.k, p.c + 1, s) && p.c < p.b
    ensures At(sum, job, p.(c := p.c + 1), y.(s := s, toS := y.toS[1..])) && y.toS[0] == Answer(job, p.c)
  {
    AnswersPop(job, p.c, p.b);
  }

  lemma ReceiverWrote(sum: Checksum, job: Job, p: Progress, y: System, r: ReceiverState)
    requires job.Valid() && At(sum, job, p, y) && ReceiverAt(job, p.a, p.b + 1, r) && p.b < p.a
    ensures var m := Answer(job, p.b);
            At(sum, job, p.(b := p.b + 1), y.(r := r, toS := y.toS + [m], up := y.up + [m]))
  {
  }

  lemma ReceiverHasRead(sum: Checksum, job: Job, p: Progress, y: System, r: ReceiverState)
    requires job.Valid() && At(sum, job, p, y) && ReceiverAt(job, p.a + 1, p.b, r) && p.b == p.a < p.k
    ensures At(sum, job, p.(a := p.a + 1), y.(r := r, toR := y.toR[1..])) && y.toR[0] == Outgoing(sum, job, p.a)
  {
    OutgoingPop(sum, job, p.a, p.k);
  }

  lemma SenderWriteLeads(sum: Checksum, factory: Factory, job: Job, p: Progress, y: System)
    requires job.Valid() && At(sum, job, p, y) && Enabled(sum, y, SenderWrites)
    ensures At(sum, job, p.(k := p.k + 1), Apply(sum, factory, y, SenderWrites))
  {
    SenderWriteAt(sum, job, p.k, p.c, y.s);
    SenderWrote(sum, job, p, y, SenderWrite(sum, y.s).0);
  }

  lemma SenderReadLeads(sum: Checksum, factory: Factory, job: Job, p: Progress, y: System)
    requires job.Valid() && At(sum, job, p, y) && Enabled(sum, y, SenderReads)
    ensures At(sum, job, p.(c := p.c + 1), Apply(sum, factory, y, SenderReads))
  {
    SenderReadAt(job, p.k, p.c, y.s);
    SenderHasRead(sum, job, p, y, SenderRead(y.s, Answer(job, p.c)).0);
  }

  lemma ReceiverWriteLeads(sum: Checksum, factory: Factory, job: Job, p: Progress, y: System)
    requires job.Valid() && At(sum, job, p, y) && Enabled(sum, y, ReceiverWrites)
    ensures At(sum, job, p.(b := p.b + 1), Apply(sum, factory, y, ReceiverWrites))
  {
    ReceiverWriteAt(job, p.a, p.b, y.r);
    ReceiverWrote(sum, job, p, y, ReceiverWrite(y.r).0);
  }

  lemma ReceiverReadLeads(sum: Checksum, factory: Factory, job: Job, p: Progress, y: System)
    requires job.Valid() && Honest(factory) && factory(job.name, |job.file|).Some?
    requires At(sum, job, p, y) && Enabled(sum, y, ReceiverReads)
    ensures At(sum, job, p.(a := p.a + 1), Apply(sum, factory, y, ReceiverReads))
  {
    ReceiverReadAt(sum, factory, job, p.a, y.r);
    ReceiverHasRead(sum, job, p, y, ReceiverRead(sum, factory, y.r, Outgoing(sum, job, p.a)).0);
  }

  // ---- whole runs ----

  predicate Clean(acts: seq<Action>) {
    forall i :: 0 <= i < |acts| ==> !acts[i].Corrupt?
  }

  function Tally(acts: seq<Action>): Progress {
    Progress(Occurs(acts, SenderWrites), Occurs(acts, ReceiverReads), Occurs(acts, ReceiverWrites),
             Occurs(acts, SenderReads))
  }

  lemma CleanPrefix(before: seq<Action>, a: Action)
    requires Clean(before + [a])
    ensures Clean(before) && !a.Corrupt?
  {
    assert forall i :: 0 <= i < |before| ==> before[i] == (before + [a])[i];
    assert (before + [a])[|before|] == a;
  }

  lemma TallyStep(before: seq<Action>, a: Action)
    ensures var p := Tally(before);
            Tally(before + [a]) == match a
                                   case SenderWrites => p.(k := p.k + 1)
                                   case SenderReads => p.(c := p.c + 1)
                                   case ReceiverWrites => p.(b := p.b + 1)
                                   case ReceiverReads => p.(a := p.a + 1)
                                   case Corrupt(_, _, _) => p
  {
    assert (before + [a])[..|before + [a]| - 1] == before;
  }

  /** Induction over clean runs, for any statement about the counts and the system. */
  lemma CleanInduction(sum: Checksum, factory: Factory, job: Job, inv: (Progress, System) -> bool, acts: seq<Action>,
                       y: System)
    requires job.Valid() && inv(Progress(0, 0, 0, 0), Start(job))
    requires forall p, x :: inv(p, x) && Enabled(sum, x, SenderWrites) && x.s.reader.blockSize > 0 ==>
                              inv(p.(k := p.k + 1), Apply(sum, factory, x, SenderWrites))
    requires forall p, x :: inv(p, x) && Enabled(sum, x, ReceiverReads) && x.s.reader.blockSize > 0 ==>
                              inv(p.(a := p.a + 1), Apply(sum, factory, x, ReceiverReads))
    requires forall p, x :: inv(p, x) && Enabled(sum, x, ReceiverWrites) && x.s.reader.blockSize > 0 ==>
                              inv(p.(b := p.b + 1), Apply(sum, factory, x, ReceiverWrites))
    requires forall p, x :: inv(p, x) && Enabled(sum, x, SenderReads) && x.s.reader.blockSize > 0 ==>
                              inv(p.(c := p.c + 1), Apply(sum, factory, x, SenderReads))
    requires Clean(acts) && Reaches(sum, factory, job, acts, y)
    ensures inv(Tally(acts), y)
  {
    var next := (x, a, z) => Step(sum, factory, x, a, z);
    var tallied: (seq<Action>, System) -> bool := (before, x) => Clean(before) ==> inv(Tally(before), x);
    assert Tally([]) == Progress(0, 0, 0, 0);
    forall before, x, a, z | tallied(before, x) && next(x, a, z)
      ensures tallied(before + [a], z)
    {
      if Clean(before + [a]) {
        CleanPrefix(before, a);
        TallyStep(before, a);
        assert inv(Tally(before), x);
      }
    }
    Runs.RunInduction(Start(job), next, tallied, acts, y);
    assert tallied(acts, y);
  }

  lemma StartAt(sum: Checksum, job: Job)
    requires job.Valid()
    ensures At(sum, job, Progress(0, 0, 0, 0), Start(job))
  {
    CountBounds(job.blockSize, |job.file|);
  }

  /** After any clean run the state is determined by how often each action was taken. In particular nobody has
      failed or panicked: every `Acknowledge` came before the first `BlockReceived`, and `DataSent` met a receiver
      that was waiting for it. */
  lemma StateIsTally(sum: Checksum, factory: Factory, job: Job, acts: seq<Action>, y: System)
    requires job.Valid() && Honest(factory) && factory(job.name, |job.file|).Some?
    requires Clean(acts) && Reaches(sum, factory, job, acts, y)
    ensures At(sum, job, Tally(acts), y)
  {
    var inv: (Progress, System) -> bool := (p, x) => At(sum, job, p, x);
    StartAt(sum, job);
    forall p, x | inv(p, x) && Enabled(sum, x, SenderWrites) && x.s.reader.blockSize > 0
      ensures inv(p.(k := p.k + 1), Apply(sum, factory, x, SenderWrites))
    {
      SenderWriteLeads(sum, factory, job, p, x);
    }
    forall p, x | inv(p, x) && Enabled(sum, x, ReceiverReads) && x.s.reader.blockSize > 0
      ensures inv(p.(a := p.a + 1), Apply(sum, factory, x, ReceiverReads))
    {
      ReceiverReadLeads(sum, factory, job, p, x);
    }
    forall p, x | inv(p, x) && Enabled(sum, x, ReceiverWrites) && x.s.reader.blockSize > 0
      ensures inv(p.(b := p.b + 1), Apply(sum, factory, x, ReceiverWrites))
    {
      ReceiverWriteLeads(sum, factory, job, p, x);
    }
    forall p, x | inv(p, x) && Enabled(sum, x, SenderReads) && x.s.reader.blockSize > 0
      ensures inv(p.(c := p.c + 1), Apply(sum, factory, x, SenderReads))
    {
      SenderReadLeads(sum, factory, job, p, x);
    }
    CleanInduction(sum, factory, job, inv, acts, y);
    assert inv(Tally(acts), y);
  }

  /** Twice the messages still to be written on both sides plus the messages in flight. */
  function Remaining(job: Job, y: System): int
    requires job.Valid()
  {
    2 * (2 * (job.Count() + 2) - |y.down| - |y.up|) + |y.toR| + |y.toS|
  }

  /** No clean schedule fails, and every step lowers the measure by one; it is never negative. */
  lemma NoErrors(sum: Checksum, factory: Factory, job: Job, acts: seq<Action>, y: System)
    requires job.Valid() && Honest(factory) && factory(job.name, |job.file|).Some?
    requires Clean(acts) && Reaches(sum, factory, job, acts, y)
    ensures y.sOk && y.rOk && !y.crashed
    ensures 0 <= Remaining(job, y) == 4 * (job.Count() + 2) - |acts|
  {
    StateIsTally(sum, factory, job, acts, y);
    TallyTotal(acts);
    WindowLengths(sum, job, 0, Tally(acts).k);
    WindowLengths(sum, job, 0, Tally(acts).b);
  }

  lemma {:induction false} TallyTotal(acts: seq<Action>)
    requires Clean(acts)
    ensures var p := Tally(acts); p.k + p.a + p.b + p.c == |acts|
  {
    if acts != [] {
      TallyTotal(acts[..|acts| - 1]);
    }
  }

  /** Some step is enabled until both sides are done. */
  lemma NoDeadlock(sum: Checksum, factory: Factory, job: Job, acts: seq<Action>, y: System)
    requires job.Valid() && Honest(factory) && factory(job.name, |job.file|).Some?
    requires Clean(acts) && Reaches(sum, factory, job, acts, y) && !Complete(y)
    ensures exists a: Action :: !a.Corrupt? && Enabled(sum, y, a)
  {
    StateIsTally(sum, factory, job, acts, y);
    CountBounds(job.blockSize, |job.file|);
    var p, n := Tally(acts), job.Count();
    if p.c < p.b {
      assert Enabled(sum, y, SenderReads);
    } else if p.b < p.a {
      assert Enabled(sum, y, ReceiverWrites);
    } else if p.a < p.k {
      assert Enabled(sum, y, ReceiverReads);
    } else {
      assert Enabled(sum, y, SenderWrites);
    }
  }

  /** A run is complete exactly after 4 (n + 2) steps; then it carried the header, every block once in order and
      `DataSent` one way and the n + 2 answers the other way, left nothing in flight and delivered the file. */
  lemma CompleteRun(sum: Checksum, factory: Factory, job: Job, acts: seq<Action>, y: System)
    requires job.Valid() && Honest(factory) && factory(job.name, |job.file|).Some?
    requires Clean(acts) && Reaches(sum, factory, job, acts, y)
    ensures Complete(y) <==> |acts| == 4 * (job.Count() + 2)
    ensures Complete(y) <==> y.s.phase == Done
    ensures Complete(y) ==>
              && y.down == OutgoingFrom(sum, job, 0, job.Count() + 2) && |y.down| == job.Count() + 2
              && y.up == AnswersFrom(job, 0, job.Count() + 2) && |y.up| == job.Count() + 2
              && y.toR == [] && y.toS == [] && Safety.Delivered(job, y)
  {
    StateIsTally(sum, factory, job, acts, y);
    TallyTotal(acts);
    WindowLengths(sum, job, 0, Tally(acts).k);
    WindowLengths(sum, job, 0, Tally(acts).b);
    Safety.SafeTransfer(sum, factory, job, acts, y);
  }
}
