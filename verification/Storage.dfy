/** The buffer, block reader and block writer as objects that are updated in place. */
module Storage {
  import opened Blocks
  import opened Counting
  import R = BlockReader
  import W = BlockWriter

  datatype BufferError = Closed | EndOfBuffer

  class Buffer {
    const Data: array<byte>
    var cursor: nat
    var closed: bool

    constructor (data: array<byte>)
      ensures Data == data && cursor == 0 && !closed
    {
      Data := data;
      cursor := 0;
      closed := false;
    }

    /** Copies what fits into `p`; the cursor stays where it is. Slicing behind the end of the data panics. */
    method Read(p: array<byte>) returns (n: nat, err: Option<BufferError>)
      requires closed || cursor <= Data.Length
      requires p != Data
      modifies p
      ensures closed ==> n == 0 && err == Some(Closed) && p[..] == old(p[..])
      ensures !closed ==>
                && n <= p.Length && cursor + n <= Data.Length && (n == p.Length || cursor + n == Data.Length)
                && p[..] == Data[cursor..cursor + n] + old(p[n..])
                && err == if n == p.Length then None else Some(EndOfBuffer)
    {
      if closed {
        return 0, Some(Closed);
      }
      n := 0;
      while n < p.Length && cursor + n < Data.Length
        invariant n <= p.Length && cursor + n <= Data.Length
        invariant forall i :: 0 <= i < n ==> p[i] == Data[cursor + i]
        invariant forall i :: n <= i < p.Length ==> p[i] == old(p[i])
      {
        p[n] := Data[cursor + n];
        n := n + 1;
      }
      err := if n == p.Length then None else Some(EndOfBuffer);
      assert p[..] == Data[cursor..cursor + n] + old(p[n..]);
    }

    /** Overwrites the data at the cursor. Exceeding the buffer panics. */
    method Write(p: seq<byte>) returns (n: nat, err: Option<BufferError>)
      requires closed || cursor + |p| <= Data.Length
      modifies Data
      ensures closed ==> n == 0 && err == Some(Closed) && Data[..] == old(Data[..])
      ensures !closed ==> n == |p| && err == None && Data[..] == Splice(old(Data[..]), cursor, p)
    {
      if closed {
        return 0, Some(Closed);
      }
      n := 0;
      while n < |p|
        invariant n <= |p|
        invariant forall i :: 0 <= i < n ==> Data[cursor + i] == p[i]
        invariant forall i :: 0 <= i < Data.Length && !(cursor <= i < cursor + n) ==> Data[i] == old(Data[i])
      {
        Data[cursor + n] := p[n];
        n := n + 1;
      }
      err := None;
      assert Data[..] == Splice(old(Data[..]), cursor, p);
    }

    method Seek(offset: nat) returns (position: nat, err: Option<BufferError>)
      modifies `cursor
      ensures closed ==> position == 0 && err == Some(Closed) && cursor == old(cursor)
      ensures !closed ==> position == offset && err == None && cursor == offset
    {
      if closed {
        return 0, Some(Closed);
      }
      cursor := offset;
      return offset, None;
    }

    method Close()
      modifies `closed
      ensures closed
    {
      closed := true;
    }
  }

  /** The first `size` bytes of some data, filled up if there are fewer. */
  ghost function Extent(data: seq<byte>, size: nat): (r: seq<byte>)
    ensures |r| == size
  {
    if size <= |data| then data[..size] else data + seq(size - |data|, _ => 0)
  }

  lemma ExtentSplice(data: seq<byte>, size: nat, offset: nat, d: seq<byte>)
    requires offset + |d| <= size && offset + |d| <= |data|
    ensures Extent(Splice(data, offset, d), size) == Splice(Extent(data, size), offset, d)
  {
  }

  datatype Result<T> = Ok(value: T) | Err(error: R.ReaderError)

  class Reader {
    const reader: Buffer
    const totalSize: nat
    const blockSize: nat
    const sum: Checksum
    var nextIndex: nat
    var redoBlocks: seq<nat>

    /** The reader as a value. Where the source is shorter than the given size its bytes are left open. */
    ghost function View(): R.ReaderState
      reads this, reader.Data
    {
      R.ReaderState(Extent(reader.Data[..], totalSize), blockSize, nextIndex, redoBlocks)
    }

    /** All blocks below `nextIndex` were there to be read. */
    ghost predicate Valid()
      reads this, reader.Data
    {
      View().Valid() && (totalSize <= reader.Data.Length || nextIndex * blockSize <= reader.Data.Length)
    }

    constructor (source: Buffer, size: nat, bs: nat, checksum: Checksum)
      requires Sized(bs, size)
      ensures Valid() && reader == source && totalSize == size && sum == checksum
      ensures View() == R.ReaderState(Extent(source.Data[..], size), bs, 0, [])
    {
      reader := source;
      totalSize := size;
      blockSize := bs;
      sum := checksum;
      nextIndex := 0;
      redoBlocks := [];
    }

    predicate IsDone()
      reads this
    {
      |redoBlocks| == 0 && Offset(blockSize, nextIndex) >= totalSize
    }

    /** The source is open and has all bytes of a block. */
    ghost predicate Readable(index: nat)
      reads this, reader
    {
      var o := Offset(blockSize, index);
      !reader.closed && o + Amount(blockSize, o, totalSize) <= reader.Data.Length
    }

    /** The index that is served next. */
    function Head(): nat
      reads this
    {
      if |redoBlocks| > 0 then redoBlocks[0] else nextIndex
    }

    function Failure(): R.ReaderError
      reads reader
    {
      if reader.closed then R.SourceClosed else R.SourceTooShort
    }

    /** The block's own bytes with their checksum, read through the buffer. An offset behind the end of the file or of
        the source panics. */
    method ReadBlock(index: nat) returns (r: Result<Block>)
      requires Valid() && Offset(blockSize, index) < totalSize
      requires reader.closed || Offset(blockSize, index) <= reader.Data.Length
      modifies reader`cursor
      ensures r == if Readable(index) then Ok(R.FileBlock(sum, View().file, blockSize, index)) else Err(Failure())
    {
      var offset := Offset(blockSize, index);
      var position, e1 := reader.Seek(offset);
      if e1.Some? {
        return Err(R.SourceClosed);
      }
      var amount := Amount(blockSize, offset, totalSize);
      var data := new byte[amount];
      var n, e2 := reader.Read(data);
      if e2.Some? {
        return Err(R.SourceTooShort);
      }
      assert data[..] == Range(View().file, blockSize, index);
      r := Ok(Block(index, data[..], sum(index, data[..])));
    }

    /** The head is a block of the file, its offset does not wrap, and it starts within the source. */
    lemma HeadStarts()
      requires Valid() && !IsDone()
      ensures Head() < BlockCount(blockSize, totalSize) && Offset(blockSize, Head()) == Head() * blockSize < totalSize
      ensures Offset(blockSize, Head()) <= reader.Data.Length
    {
      R.DoneIff(View());
      BlockRange(blockSize, totalSize, Head());
      MulMono(Head(), nextIndex, blockSize);
    }

    /** After the head was served as a fresh block. */
    lemma NextStarts()
      requires Valid() && !IsDone() && |redoBlocks| == 0 && Readable(nextIndex)
      ensures totalSize <= reader.Data.Length || (nextIndex + 1) * blockSize <= reader.Data.Length
    {
      HeadStarts();
      BlockRange(blockSize, totalSize, nextIndex);
    }

    /** Serves the next block; a failed read leaves the reader where it was. */
    method NextBlock() returns (r: Result<Block>)
      requires Valid()
      modifies `nextIndex, `redoBlocks, reader`cursor
      ensures Valid()
      ensures old(IsDone() || Readable(Head())) ==>
                && View() == R.NextBlock(sum, old(View())).0
                && r == match R.NextBlock(sum, old(View())).1 case None => Err(R.EndOfFile) case Some(b) => Ok(b)
      ensures old(!IsDone() && !Readable(Head())) ==> View() == old(View()) && r == Err(Failure())
    {
      if IsDone() {
        return Err(R.EndOfFile);
      }
      R.NextServesHead(sum, View());
      HeadStarts();
      r := ReadBlock(Head());
      if r.Err? {
        return;
      }
      if |redoBlocks| > 0 {
        redoBlocks := redoBlocks[1..];
      } else {
        NextStarts();
        nextIndex := nextIndex + 1;
      }
    }

    /** Looks through the queue before it adds an index. */
    method RedoBlock(index: nat) returns (r: R.RedoResult)
      requires Valid()
      modifies `redoBlocks
      ensures Valid()
      ensures (View(), r) == R.RedoBlock(old(View()), index)
    {
      R.RedoQueuesOnce(View(), index);
      if Offset(blockSize, index) >= totalSize {
        return R.RedoError(R.InvalidIndex);
      }
      if index >= nextIndex {
        return R.RedoError(R.IndexNotYetRead);
      }
      for k := 0 to |redoBlocks|
        invariant index !in redoBlocks[..k]
        invariant redoBlocks == old(redoBlocks)
      {
        if index == redoBlocks[k] {
          return R.AlreadyQueued;
        }
        assert redoBlocks[..k + 1] == redoBlocks[..k] + [redoBlocks[k]];
      }
      assert redoBlocks[..|redoBlocks|] == redoBlocks;
      redoBlocks := redoBlocks + [index];
      return R.Queued;
    }
  }

  class Writer {
    const writer: Buffer
    const totalSize: nat
    const blockSize: nat
    const sum: Checksum
    var written: seq<bool>
    var writtenCount: nat

    /** The writer as a value. Where the storage is shorter than the given size its bytes are left open. */
    ghost function View(): W.WriterState
      reads this, writer.Data
    {
      W.WriterState(Extent(writer.Data[..], totalSize), blockSize, written, writtenCount)
    }

    ghost predicate Valid()
      reads this, writer.Data
    {
      View().Valid()
    }

    constructor (storage: Buffer, size: nat, bs: nat, checksum: Checksum)
      requires Sized(bs, size)
      ensures Valid() && writer == storage && totalSize == size && sum == checksum
      ensures View() == W.NewWriter(Extent(storage.Data[..], size), bs)
    {
      writer := storage;
      totalSize := size;
      blockSize := bs;
      sum := checksum;
      written := seq(BlockCount(bs, size), _ => false);
      writtenCount := 0;
      new;
      W.NewWriterValid(Extent(storage.Data[..], size), bs);
    }

    predicate IsDone()
      requires blockSize > 0
      reads this
    {
      writtenCount == BlockCount(blockSize, totalSize)
    }

    /** The checks in the source's order; an index past the bitmap panics. */
    method CheckBlock(b: Block) returns (r: W.WriteStatus)
      requires Valid() && W.CheckBlock(sum, View(), b) != W.IndexPanic
      ensures r == W.CheckBlock(sum, View(), b)
    {
      var offset := Offset(blockSize, b.index);
      if offset >= totalSize {
        return W.WriterBoundsExceeded;
      }
      if |b.data| != Amount(blockSize, offset, totalSize) {
        return W.BadBlockData;
      }
      if written[b.index] {
        return W.AlreadyWritten;
      }
      if sum(b.index, b.data) != b.checksum {
        return W.BadBlockChecksum;
      }
      return W.Written;
    }

    /** Exceeding the storage panics, like an index past the bitmap. */
    method WriteBlock(b: Block) returns (r: W.WriteStatus)
      requires Valid() && W.CheckBlock(sum, View(), b) != W.IndexPanic
      requires W.CheckBlock(sum, View(), b) == W.Written && !writer.closed ==>
                 Offset(blockSize, b.index) + |b.data| <= writer.Data.Length
      modifies `written, `writtenCount, writer`cursor, writer.Data
      ensures Valid()
      ensures !writer.closed ==> (View(), r) == W.WriteBlock(sum, old(View()), b)
      ensures writer.closed ==>
                && View() == old(View())
                && r == (var c := W.CheckBlock(sum, old(View()), b); if c == W.Written then W.StorageClosed else c)
      ensures totalSize <= writer.Data.Length ==> writer.Data[totalSize..] == old(writer.Data[totalSize..])
    {
      W.WriteEffect(sum, View(), b);
      r := CheckBlock(b);
      if r != W.Written {
        return;
      }
      var position, e1 := writer.Seek(Offset(blockSize, b.index));
      if e1.Some? {
        return W.StorageClosed;
      }
      ExtentSplice(writer.Data[..], totalSize, Offset(blockSize, b.index), b.data);
      var n, e2 := writer.Write(b.data);
      written := written[b.index := true];
      writtenCount := writtenCount + 1;
    }
  }

  /** Reading every block and writing it: the writer is done exactly with the last one, and the output is the input.
      What a larger storage has behind it stays as it was. */
  method CopyAll(r: Reader, w: Writer)
    requires r.Valid() && w.Valid() && r.sum == w.sum && r.blockSize == w.blockSize && r.totalSize == w.totalSize
    requires r.totalSize <= r.reader.Data.Length && w.totalSize <= w.writer.Data.Length
    requires r.reader != w.writer && r.reader.Data != w.writer.Data && !r.reader.closed && !w.writer.closed
    requires r.nextIndex == 0 && r.redoBlocks == [] && w.View() == W.NewWriter(w.View().out, w.blockSize)
    modifies r, w, r.reader`cursor, w.writer`cursor, w.writer.Data
    ensures w.IsDone() && w.writer.Data[..w.totalSize] == r.reader.Data[..r.totalSize]
    ensures w.writer.Data[w.totalSize..] == old(w.writer.Data[w.totalSize..])
    ensures r.reader.Data[..] == old(r.reader.Data[..])
  {
    ghost var file := r.View().file;
    while !r.IsDone()
      invariant r.Valid() && w.Valid() && r.redoBlocks == []
      invariant r.reader.Data[..] == old(r.reader.Data[..]) && r.View().file == file
      invariant w.writer.Data[w.totalSize..] == old(w.writer.Data[w.totalSize..])
      invariant Prefix(file, r.blockSize, r.nextIndex, w.View())
      decreases r.totalSize - r.nextIndex
    {
      ghost var i := r.nextIndex;
      r.HeadStarts();
      CountAtMost(r.blockSize, |file|);
      PrefixGrows(w.sum, file, i, w.View());
      var b := r.NextBlock();
      var s := w.WriteBlock(b.value);
    }
    R.DoneIff(r.View());
    PrefixWhole(file, w.View());
  }

  /** The first `k` blocks are copied, the rest is not yet written. */
  ghost predicate Prefix(file: seq<byte>, bs: nat, k: nat, w: W.WriterState) {
    && bs > 0 && w.blockSize == bs && |w.out| == |file| && |w.written| == BlockCount(bs, |file|) && k <= |w.written|
    && forall i {:trigger w.written[i]} {:trigger Range(w.out, bs, i)} :: 0 <= i < |w.written| ==>
         (w.written[i] <==> i < k) && (i < k ==> Range(w.out, bs, i) == Range(file, bs, i))
  }

  lemma PrefixGrows(sum: Checksum, file: seq<byte>, k: nat, w: W.WriterState)
    requires w.Valid() && Prefix(file, w.blockSize, k, w) && k < w.Count()
    ensures Prefix(file, w.blockSize, k + 1, W.WriteBlock(sum, w, R.FileBlock(sum, file, w.blockSize, k)).0)
  {
    NoWrap(w.blockSize, |file|, k);
    W.WriteEffect(sum, w, R.FileBlock(sum, file, w.blockSize, k));
  }

  lemma PrefixWhole(file: seq<byte>, w: W.WriterState)
    requires w.Valid() && Prefix(file, w.blockSize, w.Count(), w)
    ensures w.IsDone() && w.out == file
  {
    W.DoneIff(w);
    RangesDetermine(w.out, file, w.blockSize);
  }

  lemma CountAtMost(bs: nat, size: nat)
    requires bs > 0
    ensures BlockCount(bs, size) <= size
  {
    if size > 0 {
      CountBounds(bs, size);
      MulMono(1, bs, BlockCount(bs, size) - 1);
    }
  }
}
