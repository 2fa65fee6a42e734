/** The block writer: checks each block, writes it at its place and keeps a bitmap of what was written. */
module BlockWriter {
  import opened Blocks
  import opened Counting
  import opened BlockReader

  datatype WriteStatus =
    | Written
    | WriterBoundsExceeded
    | BadBlockData
    | AlreadyWritten
    | BadBlockChecksum
    | StorageClosed
    | IndexPanic   // the bitmap is indexed outside its bounds

  datatype WriterState = WriterState(out: seq<byte>, blockSize: nat, written: seq<bool>, count: nat)
  {
    function Count(): nat
      requires blockSize > 0
    {
      BlockCount(blockSize, |out|)
    }

    predicate IsDone()
      requires blockSize > 0
    {
      count == Count()
    }

    ghost predicate Valid() {
      && Sized(blockSize, |out|)
      && |written| == Count()
      && count == CountTrue(written)
    }
  }

  function NewWriter(storage: seq<byte>, bs: nat): WriterState
    requires bs > 0
  {
    WriterState(storage, bs, seq(BlockCount(bs, |storage|), _ => false), 0)
  }

  function CheckBlock(sum: Checksum, w: WriterState, b: Block): (r: WriteStatus)
    ensures r == Written ==> Offset(w.blockSize, b.index) + |b.data| <= |w.out| && b.index < |w.written|
  {
    var o := Offset(w.blockSize, b.index);
    if o >= |w.out| then WriterBoundsExceeded
    else if |b.data| != Amount(w.blockSize, o, |w.out|) then BadBlockData
    else if b.index >= |w.written| then IndexPanic
    else if w.written[b.index] then AlreadyWritten
    else if sum(b.index, b.data) != b.checksum then BadBlockChecksum
    else Written
  }

  function WriteBlock(sum: Checksum, w: WriterState, b: Block): (WriterState, WriteStatus) {
    var r := CheckBlock(sum, w, b);
    if r != Written then (w, r)
    else
      (w.(out := Splice(w.out, Offset(w.blockSize, b.index), b.data),
          written := w.written[b.index := true],
          count := w.count + 1), Written)
  }

  lemma NewWriterValid(storage: seq<byte>, bs: nat)
    requires Sized(bs, |storage|)
    ensures NewWriter(storage, bs).Valid()
    ensures NewWriter(storage, bs).IsDone() <==> storage == []
  {
    CountFull(NewWriter(storage, bs).written);
    if storage != [] { CountBounds(bs, |storage|); }
  }

  lemma DoneIff(w: WriterState)
    requires w.Valid()
    ensures w.IsDone() <==> forall i :: 0 <= i < |w.written| ==> w.written[i]
    ensures w.count <= w.Count()
  {
    CountFull(w.written);
  }

  /** The bitmap is overrun exactly by an index past the last block whose offset wraps back into the file. */
  lemma PanicIff(sum: Checksum, w: WriterState, b: Block)
    requires w.Valid()
    ensures WriteBlock(sum, w, b).1 == IndexPanic <==>
            && b.index >= w.Count()
            && Offset(w.blockSize, b.index) < |w.out|
            && |b.data| == Amount(w.blockSize, Offset(w.blockSize, b.index), |w.out|)
    ensures b.index * w.blockSize < TWO_64 ==> WriteBlock(sum, w, b).1 != IndexPanic
  {
    if b.index * w.blockSize < TWO_64 { InFileIff(w.blockSize, |w.out|, b.index); }
  }

  /** An overrun: index 2^63 with two-byte blocks lands on offset 0. */
  lemma PanicReached(sum: Checksum, d: byte)
    ensures var w := NewWriter([d, d], 2);
            w.Valid() && WriteBlock(sum, w, Block(TWO_63, [d, d], [])).1 == IndexPanic
  {
    NewWriterValid([d, d], 2);
    PanicIff(sum, NewWriter([d, d], 2), Block(TWO_63, [d, d], []));
    assert Offset(2, TWO_63) == 0;
  }

  /** A block is written exactly if it is new, of the right length and carries its checksum; then its own
      range holds its data and every other range is untouched. Otherwise nothing changes. */
  lemma WriteEffect(sum: Checksum, w: WriterState, b: Block)
    requires w.Valid()
    ensures var (w', r) := WriteBlock(sum, w, b);
            && w'.Valid() && w'.blockSize == w.blockSize && |w'.out| == |w.out|
            && (r == Written <==>
                  && b.index < w.Count() && !w.written[b.index]
                  && |b.data| == |Range(w.out, w.blockSize, b.index)|
                  && b.checksum == sum(b.index, b.data))
            && (r != Written ==> w' == w)
            && (r == Written ==>
                  && w'.written == w.written[b.index := true]
                  && w'.count == w.count + 1
                  && forall i :: 0 <= i < w.Count() ==>
                       Range(w'.out, w.blockSize, i) ==
                       if i == b.index then b.data else Range(w.out, w.blockSize, i))
  {
    if b.index < w.Count() {
      NoWrap(w.blockSize, |w.out|, b.index);
      InFileIff(w.blockSize, |w.out|, b.index);
    }
    var (w', r) := WriteBlock(sum, w, b);
    if r == Written {
      CountSet(w.written, b.index);
      forall i | 0 <= i < w.Count()
        ensures Range(w'.out, w.blockSize, i) == if i == b.index then b.data else Range(w.out, w.blockSize, i)
      {
        SpliceRange(w.out, w.blockSize, b.index, b.data, i);
      }
    }
  }

  // ---- every sequence of calls ----

  datatype WriterRun = WriterRun(state: WriterState, accepted: seq<Block>)

  function Write(sum: Checksum, e: WriterRun, b: Block): WriterRun {
    var (w, r) := WriteBlock(sum, e.state, b);
    WriterRun(w, if r == Written then e.accepted + [b] else e.accepted)
  }

  /** All blocks offered in turn; `accepted` collects the ones that were written. */
  function RunWrites(sum: Checksum, w: WriterState, blocks: seq<Block>): WriterRun {
    if blocks == [] then WriterRun(w, [])
    else Write(sum, RunWrites(sum, w, blocks[..|blocks| - 1]), blocks[|blocks| - 1])
  }

  ghost predicate Proper(sum: Checksum, w: WriterState, b: Block)
    requires w.blockSize > 0
  {
    && b.index < w.Count()
    && b.checksum == sum(b.index, b.data)
    && Range(w.out, w.blockSize, b.index) == b.data
  }

  /** What a run leaves behind: flags count the accepted blocks once each, a flagged range holds the accepted
      data with its checksum, an unflagged range still holds what the storage held at the start. */
  ghost predicate Accounted(sum: Checksum, storage: seq<byte>, e: WriterRun) {
    var w := e.state;
    && w.Valid() && |w.out| == |storage| && w.count == |e.accepted|
    && (forall i :: 0 <= i < w.Count() ==> Occurs(Indices(e.accepted), i) == if w.written[i] then 1 else 0)
    && (forall k :: 0 <= k < |e.accepted| ==> Proper(sum, w, e.accepted[k]))
    && (forall i :: 0 <= i < w.Count() && !w.written[i] ==>
          Range(w.out, w.blockSize, i) == Range(storage, w.blockSize, i))
  }

  lemma WriteAccounted(sum: Checksum, storage: seq<byte>, e: WriterRun, b: Block)
    requires Accounted(sum, storage, e)
    ensures Accounted(sum, storage, Write(sum, e, b))
  {
    WriteEffect(sum, e.state, b);
    var e' := Write(sum, e, b);
    if WriteBlock(sum, e.state, b).1 == Written {
      assert Indices(e'.accepted) == Indices(e.accepted) + [b.index];
      forall i | 0 <= i < e.state.Count()
        ensures Occurs(Indices(e'.accepted), i) == Occurs(Indices(e.accepted), i) + if i == b.index then 1 else 0
      {
        OccursConcat(Indices(e.accepted), [b.index], i);
        assert [b.index][..0] == [];
      }
      forall k | 0 <= k < |e'.accepted|
        ensures Proper(sum, e'.state, e'.accepted[k])
      {
        if k < |e.accepted| { AcceptedIsWritten(sum, storage, e, k); }
      }
    }
  }

  lemma AcceptedIsWritten(sum: Checksum, storage: seq<byte>, e: WriterRun, k: nat)
    requires Accounted(sum, storage, e) && k < |e.accepted|
    ensures e.accepted[k].index < |e.state.written| && e.state.written[e.accepted[k].index]
  {
    var i, all := e.accepted[k].index, Indices(e.accepted);
    assert Proper(sum, e.state, e.accepted[k]);
    assert i < e.state.Count();
    assert Occurs(all, i) == if e.state.written[i] then 1 else 0;
    OccursIn(all, i);
    assert all[k] == i;
  }

  lemma {:induction false} RunAccounted(sum: Checksum, storage: seq<byte>, bs: nat, blocks: seq<Block>)
    requires Sized(bs, |storage|)
    ensures Accounted(sum, storage, RunWrites(sum, NewWriter(storage, bs), blocks))
    ensures RunWrites(sum, NewWriter(storage, bs), blocks).state.blockSize == bs
  {
    if blocks == [] {
      NewWriterValid(storage, bs);
      assert Indices([]) == [];
    } else {
      var n := |blocks| - 1;
      RunAccounted(sum, storage, bs, blocks[..n]);
      WriteAccounted(sum, storage, RunWrites(sum, NewWriter(storage, bs), blocks[..n]), blocks[n]);
    }
  }

  // ---- blocks that come from a reader ----

  ghost predicate FromFile(sum: Checksum, file: seq<byte>, bs: nat, blocks: seq<Block>)
    requires bs > 0
  {
    forall k :: 0 <= k < |blocks| ==>
      blocks[k].index < BlockCount(bs, |file|) && blocks[k] == FileBlock(sum, file, bs, blocks[k].index)
  }

  /** A range is flagged exactly if its block was offered, and then holds the file's bytes. */
  ghost predicate Copied(file: seq<byte>, storage: seq<byte>, offered: seq<nat>, w: WriterState)
    requires w.blockSize > 0
  {
    && w.Valid() && |w.out| == |file|
    && (forall i :: 0 <= i < w.Count() ==> (w.written[i] <==> i in offered))
    && (forall i :: 0 <= i < w.Count() ==>
          Range(w.out, w.blockSize, i) == Range(if w.written[i] then file else storage, w.blockSize, i))
  }

  lemma CopyOne(sum: Checksum, file: seq<byte>, storage: seq<byte>, offered: seq<nat>, w: WriterState, i: nat)
    requires w.blockSize > 0 && Copied(file, storage, offered, w) && i < w.Count()
    ensures var w' := WriteBlock(sum, w, FileBlock(sum, file, w.blockSize, i)).0;
            w'.blockSize == w.blockSize && Copied(file, storage, offered + [i], w')
  {
    NoWrap(w.blockSize, |file|, i);
    WriteEffect(sum, w, FileBlock(sum, file, w.blockSize, i));
  }

  /** The reader's blocks in any order and with any repetitions. */
  lemma {:induction false} AnyOrder(sum: Checksum, file: seq<byte>, storage: seq<byte>, bs: nat, blocks: seq<Block>)
    requires Sized(bs, |file|) && |storage| == |file| && FromFile(sum, file, bs, blocks)
    ensures var w := RunWrites(sum, NewWriter(storage, bs), blocks).state;
            w.blockSize == bs && Copied(file, storage, Indices(blocks), w)
  {
    if blocks == [] {
      NewWriterValid(storage, bs);
      assert Indices(blocks) == [];
    } else {
      var n := |blocks| - 1;
      AnyOrder(sum, file, storage, bs, blocks[..n]);
      var w, i := RunWrites(sum, NewWriter(storage, bs), blocks[..n]).state, blocks[n].index;
      IndicesSnoc(blocks);
      assert blocks[n] == FileBlock(sum, file, bs, i);
      CopyOne(sum, file, storage, Indices(blocks[..n]), w, i);
    }
  }

  /** Done means the output is the input, and only then unless the unwritten storage already agreed with it. */
  lemma DoneIsCopy(sum: Checksum, file: seq<byte>, storage: seq<byte>, bs: nat, blocks: seq<Block>)
    requires Sized(bs, |file|) && |storage| == |file| && FromFile(sum, file, bs, blocks)
    ensures var w := RunWrites(sum, NewWriter(storage, bs), blocks).state;
            && w.blockSize == bs
            && (w.IsDone() <==> forall i :: 0 <= i < w.Count() ==> i in Indices(blocks))
            && (w.IsDone() ==> w.out == file)
            && (w.out == file <==> forall i :: 0 <= i < BlockCount(bs, |file|) && i !in Indices(blocks) ==>
                                     Range(storage, bs, i) == Range(file, bs, i))
  {
    AnyOrder(sum, file, storage, bs, blocks);
    var w := RunWrites(sum, NewWriter(storage, bs), blocks).state;
    DoneIff(w);
    if forall i :: 0 <= i < BlockCount(bs, |file|) && i !in Indices(blocks) ==>
                     Range(storage, bs, i) == Range(file, bs, i) {
      RangesDetermine(w.out, file, bs);
    }
    if w.out == file {
      forall i | 0 <= i < BlockCount(bs, |file|) && i !in Indices(blocks)
        ensures Range(storage, bs, i) == Range(file, bs, i)
      {
        assert Range(w.out, bs, i) == Range(storage, bs, i);
      }
    }
  }
}
