/** The block reader: serves the blocks of a file in order, but blocks that were asked for again first. */
module BlockReader {
  import opened Blocks
  import opened Counting

  datatype ReaderError = EndOfFile | InvalidIndex | IndexNotYetRead | SourceClosed | SourceTooShort

  datatype ReaderState = ReaderState(file: seq<byte>, blockSize: nat, next: nat, redo: seq<nat>)
  {
    function Count(): nat
      requires blockSize > 0
    {
      BlockCount(blockSize, |file|)
    }

    predicate IsDone() {
      |redo| == 0 && Offset(blockSize, next) >= |file|
    }

    /** What every sequence of calls keeps: the redo queue is duplicate free and below `next`. */
    ghost predicate Valid() {
      && Sized(blockSize, |file|)
      && next <= Count()
      && (forall k :: 0 <= k < |redo| ==> redo[k] < next)
      && (forall j, k :: 0 <= j < k < |redo| ==> redo[j] != redo[k])
    }

    /** Indices still to be served, in the order in which they will be. */
    ghost function WorkList(): seq<nat>
      requires blockSize > 0 && next <= Count()
    {
      redo + seq(Count() - next, k => next + k)
    }
  }

  /** Block `i` of `file` as it goes on the wire. */
  function FileBlock(sum: Checksum, file: seq<byte>, bs: nat, i: nat): Block {
    Block(i, Range(file, bs, i), sum(i, Range(file, bs, i)))
  }

  function NextBlock(sum: Checksum, r: ReaderState): (ReaderState, Option<Block>) {
    if r.IsDone() then (r, None)
    else if |r.redo| > 0 then
      (r.(redo := r.redo[1..]), Some(FileBlock(sum, r.file, r.blockSize, r.redo[0])))
    else
      (r.(next := r.next + 1), Some(FileBlock(sum, r.file, r.blockSize, r.next)))
  }

  datatype RedoResult = Queued | AlreadyQueued | RedoError(error: ReaderError)

  function RedoBlock(r: ReaderState, index: nat): (ReaderState, RedoResult) {
    if Offset(r.blockSize, index) >= |r.file| then (r, RedoError(InvalidIndex))
    else if index >= r.next then (r, RedoError(IndexNotYetRead))
    else if index in r.redo then (r, AlreadyQueued)
    else (r.(redo := r.redo + [index]), Queued)
  }

  // ---- one call ----

  lemma DoneIff(r: ReaderState)
    requires r.Valid()
    ensures r.IsDone() <==> r.WorkList() == []
    ensures r.IsDone() <==> r.redo == [] && r.next == r.Count()
  {
    NoWrap(r.blockSize, |r.file|, r.next);
    InFileIff(r.blockSize, |r.file|, r.next);
  }

  /** `NextBlock` serves exactly the head of the work list, whose data is the file's own slice. */
  lemma NextServesHead(sum: Checksum, r: ReaderState)
    requires r.Valid()
    ensures var (r', b) := NextBlock(sum, r);
            && r'.Valid() && r'.file == r.file && r'.blockSize == r.blockSize
            && b.None? == (r.WorkList() == [])
            && (b.None? ==> r' == r)
            && (b.Some? ==>
                  && r.WorkList() == [b.value.index] + r'.WorkList()
                  && b.value.index < r'.next
                  && b.value == FileBlock(sum, r.file, r.blockSize, b.value.index))
  {
    DoneIff(r);
    var (r', b) := NextBlock(sum, r);
    if b.Some? && |r.redo| > 0 {
      assert r.redo == [r.redo[0]] + r'.redo;
    }
  }

  /** A redo is accepted exactly for a block that was served and is not queued, and then waits
      behind the earlier redos and before every fresh block. An index whose offset wraps into the file is refused
      because no such block was served. */
  lemma RedoQueuesOnce(r: ReaderState, index: nat)
    requires r.Valid()
    ensures var (r', q) := RedoBlock(r, index);
            && r'.Valid()
            && (q == Queued <==> index < r.next && index !in r.redo)
            && (q == AlreadyQueued <==> index in r.redo)
            && (q == RedoError(InvalidIndex) <==> Offset(r.blockSize, index) >= |r.file|)
            && (q == RedoError(IndexNotYetRead) <==> index >= r.next && Offset(r.blockSize, index) < |r.file|)
            && (q == Queued ==>
                  && r'.redo == r.redo + [index] && r'.next == r.next
                  && r'.WorkList() == r.WorkList()[..|r.redo|] + [index] + r.WorkList()[|r.redo|..])
            && (q != Queued ==> r' == r)
  {
    if index < r.next {
      NoWrap(r.blockSize, |r.file|, index);
      InFileIff(r.blockSize, |r.file|, index);
    }
  }

  // ---- every sequence of calls ----

  datatype ReaderOp = Next | Redo(index: nat)

  datatype ReaderRun = ReaderRun(state: ReaderState, served: seq<Block>, redone: seq<nat>)

  function Call(sum: Checksum, e: ReaderRun, op: ReaderOp): ReaderRun {
    match op
    case Next =>
      var (s, b) := NextBlock(sum, e.state);
      e.(state := s, served := if b.Some? then e.served + [b.value] else e.served)
    case Redo(i) =>
      var (s, q) := RedoBlock(e.state, i);
      e.(state := s, redone := if q == Queued then e.redone + [i] else e.redone)
  }

  /** All calls in `ops` from state `r`: the final state, the blocks served and the redos accepted. */
  function Run(sum: Checksum, r: ReaderState, ops: seq<ReaderOp>): ReaderRun {
    if ops == [] then ReaderRun(r, [], [])
    else Call(sum, Run(sum, r, ops[..|ops| - 1]), ops[|ops| - 1])
  }

  ghost function Indices(bs: seq<Block>): seq<nat> {
    seq(|bs|, k requires 0 <= k < |bs| => bs[k].index)
  }

  lemma IndicesSnoc(bs: seq<Block>)
    requires bs != []
    ensures Indices(bs) == Indices(bs[..|bs| - 1]) + [bs[|bs| - 1].index]
  {
  }

  /** No index is lost or invented: served and still pending together are the first work list plus the
      accepted redos, and every served block is the file's slice. */
  ghost predicate Conserved(sum: Checksum, r: ReaderState, e: ReaderRun)
    requires r.Valid()
  {
    && e.state.Valid() && e.state.file == r.file && e.state.blockSize == r.blockSize
    && (forall i :: Occurs(Indices(e.served), i) + Occurs(e.state.WorkList(), i)
                    == Occurs(r.WorkList(), i) + Occurs(e.redone, i))
    && (forall k :: 0 <= k < |e.served| ==> e.served[k] == FileBlock(sum, r.file, r.blockSize, e.served[k].index))
  }

  lemma NextConserves(sum: Checksum, r: ReaderState, e: ReaderRun)
    requires r.Valid() && Conserved(sum, r, e)
    ensures Conserved(sum, r, Call(sum, e, Next))
  {
    NextServesHead(sum, e.state);
    var (s, b) := NextBlock(sum, e.state);
    if b.Some? { PopConserves(sum, r, e, s, b.value); }
  }

  lemma PopConserves(sum: Checksum, r: ReaderState, e: ReaderRun, s: ReaderState, b: Block)
    requires r.Valid() && Conserved(sum, r, e)
    requires s.Valid() && s.file == r.file && s.blockSize == r.blockSize
    requires e.state.WorkList() == [b.index] + s.WorkList()
    requires b == FileBlock(sum, r.file, r.blockSize, b.index)
    ensures Conserved(sum, r, e.(state := s, served := e.served + [b]))
  {
    assert Indices(e.served + [b]) == Indices(e.served) + [b.index];
    forall i
      ensures Occurs(Indices(e.served + [b]), i) + Occurs(s.WorkList(), i)
              == Occurs(Indices(e.served), i) + Occurs(e.state.WorkList(), i)
    {
      OccursConcat([b.index], s.WorkList(), i);
      OccursConcat(Indices(e.served), [b.index], i);
    }
  }

  lemma RedoConserves(sum: Checksum, r: ReaderState, e: ReaderRun, i: nat)
    requires r.Valid() && Conserved(sum, r, e)
    ensures Conserved(sum, r, Call(sum, e, Redo(i)))
  {
    RedoQueuesOnce(e.state, i);
    if RedoBlock(e.state, i).1 == Queued {
      var s := e.state.(redo := e.state.redo + [i]);
      forall j
        ensures Occurs(s.WorkList(), j) == Occurs(e.state.WorkList(), j) + Occurs([i], j)
        ensures Occurs(e.redone + [i], j) == Occurs(e.redone, j) + Occurs([i], j)
      {
        InsertCounts(e.state.WorkList(), |e.state.redo|, i, j);
        OccursConcat(e.redone, [i], j);
      }
    }
  }

  lemma InsertCounts(w: seq<nat>, k: nat, i: nat, j: nat)
    requires k <= |w|
    ensures Occurs(w[..k] + [i] + w[k..], j) == Occurs(w, j) + Occurs([i], j)
  {
    assert w == w[..k] + w[k..];
    OccursConcat(w[..k], w[k..], j);
    OccursConcat(w[..k] + [i], w[k..], j);
    OccursConcat(w[..k], [i], j);
  }

  lemma {:induction false} RunConserves(sum: Checksum, r: ReaderState, ops: seq<ReaderOp>)
    requires r.Valid()
    ensures Conserved(sum, r, Run(sum, r, ops))
  {
    if ops == [] {
      assert Indices([]) == [];
    } else {
      var n := |ops| - 1;
      RunConserves(sum, r, ops[..n]);
      match ops[n]
      case Next => NextConserves(sum, r, Run(sum, r, ops[..n]));
      case Redo(i) => RedoConserves(sum, r, Run(sum, r, ops[..n]), i);
    }
  }

  /** From a fresh reader: once it reports done, every block was served once plus once per accepted redo. */
  lemma DoneServedAll(sum: Checksum, file: seq<byte>, bs: nat, ops: seq<ReaderOp>, i: nat)
    requires Sized(bs, |file|) && i < BlockCount(bs, |file|)
    requires Run(sum, ReaderState(file, bs, 0, []), ops).state.IsDone()
    ensures var e := Run(sum, ReaderState(file, bs, 0, []), ops);
            Occurs(Indices(e.served), i) == 1 + Occurs(e.redone, i)
  {
    var r := ReaderState(file, bs, 0, []);
    var e := Run(sum, r, ops);
    assert Conserved(sum, r, e) by { RunConserves(sum, r, ops); }
    assert e.state.WorkList() == [] by { DoneIff(e.state); }
    FreshWorkList(file, bs);
    UpToOnce(BlockCount(bs, |file|), i);
  }

  lemma FreshWorkList(file: seq<byte>, bs: nat)
    requires bs > 0
    ensures ReaderState(file, bs, 0, []).WorkList() == UpTo(BlockCount(bs, |file|))
  {
  }

  ghost function UpTo(n: nat): seq<nat> {
    seq(n, k => k)
  }

  lemma {:induction false} UpToOnce(n: nat, i: nat)
    ensures Occurs(UpTo(n), i) == if i < n then 1 else 0
  {
    if n > 0 {
      UpToOnce(n - 1, i);
      assert UpTo(n)[..n - 1] == UpTo(n - 1);
    }
  }
}
