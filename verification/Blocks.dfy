/** Block arithmetic: how a file of `size` bytes is cut into blocks of `bs` bytes.
    All quantities are unsigned 64-bit words in the source, so `Offset` wraps. */
module Blocks {

  const TWO_63: nat := 0x8000_0000_0000_0000
  const TWO_64: nat := 0x1_0000_0000_0000_0000

  type byte = b: int | 0 <= b < 256

  /** A digest function; the protocol never looks inside it. */
  type Checksum = (nat, seq<byte>) -> seq<byte>

  datatype Option<+T> = None | Some(value: T)

  datatype Block = Block(index: nat, data: seq<byte>, checksum: seq<byte>)

  function BlockCount(bs: nat, size: nat): nat
    requires bs > 0
  {
    if size == 0 then 0 else (size - 1) / bs + 1
  }

  function Offset(bs: nat, index: nat): nat {
    index * bs % TWO_64
  }

  function Index(bs: nat, offset: nat): nat
    requires bs > 0
  {
    offset / bs
  }

  function Amount(bs: nat, offset: nat, size: nat): nat {
    if offset >= size then 0
    else if bs < size - offset then bs else size - offset
  }

  /** A file that Go can hold in memory or address with an `int64`, and a non-zero block size. */
  predicate Sized(bs: nat, size: nat) {
    0 < bs < TWO_64 && size < TWO_63
  }

  // ---- the ranges tile the file ----

  lemma CountBounds(bs: nat, size: nat)
    requires bs > 0 && size > 0
    ensures var n := BlockCount(bs, size);
            n >= 1 && (n - 1) * bs < size <= n * bs
  {
    var q := (size - 1) / bs;
    assert size - 1 == q * bs + (size - 1) % bs;
    assert (q + 1) * bs == q * bs + bs;
  }

  lemma MulMono(a: nat, b: nat, c: nat)
    requires a <= b
    ensures a * c <= b * c
  {
    assert (b - a) * c >= 0;
    assert b * c == a * c + (b - a) * c;
  }

  /** No offset up to and including the one past the last block wraps. */
  lemma NoWrap(bs: nat, size: nat, i: nat)
    requires 0 < bs < TWO_64 && (size < TWO_63 || size + bs <= TWO_64)
    requires i <= BlockCount(bs, size)
    ensures i * bs < TWO_64 && Offset(bs, i) == i * bs
  {
    var n := BlockCount(bs, size);
    if size > 0 {
      CountBounds(bs, size);
      MulMono(i, n, bs);
      assert n * bs == (n - 1) * bs + bs;
      if n >= 2 {
        MulMono(1, n - 1, bs);
      }
    } else {
      assert i == 0;
      assert 0 * bs == 0;
    }
  }

  /** As long as the product fits in a word, being a block of the file and starting inside it agree. */
  lemma InFileIff(bs: nat, size: nat, i: nat)
    requires bs > 0 && i * bs < TWO_64
    ensures i < BlockCount(bs, size) <==> Offset(bs, i) < size
  {
    var n := BlockCount(bs, size);
    if size > 0 {
      CountBounds(bs, size);
      if i < n { MulMono(i, n - 1, bs); } else { MulMono(n, i, bs); }
    }
  }

  /** Any block size but zero and any size that a word holds. */
  predicate Words(bs: nat, size: nat) {
    0 < bs < TWO_64 && size < TWO_64
  }

  lemma Unwrapped(x: nat)
    requires x < TWO_64
    ensures x % TWO_64 == x
  {
  }

  /** Where block `i` lies: ranges are non-empty, contiguous, and only the last one may be short. */
  lemma BlockRange(bs: nat, size: nat, i: nat)
    requires Words(bs, size) && i < BlockCount(bs, size)
    ensures Offset(bs, i) == i * bs < size
    ensures var a := Amount(bs, i * bs, size);
            && 1 <= a <= bs
            && i * bs + a == (if i + 1 < BlockCount(bs, size) then (i + 1) * bs else size)
            && (i + 1 < BlockCount(bs, size) ==> a == bs)
  {
    CountBounds(bs, size);
    MulMono(i, BlockCount(bs, size) - 1, bs);
    Unwrapped(i * bs);
    assert (i + 1) * bs == i * bs + bs;
    if i + 1 < BlockCount(bs, size) {
      MulMono(i + 1, BlockCount(bs, size) - 1, bs);
    }
  }

  /** Two different blocks never overlap. */
  lemma RangesDisjoint(bs: nat, size: nat, i: nat, j: nat)
    requires Words(bs, size) && i < j < BlockCount(bs, size)
    ensures Offset(bs, i) + Amount(bs, Offset(bs, i), size) <= Offset(bs, j)
  {
    BlockRange(bs, size, i);
    BlockRange(bs, size, j);
    MulMono(i + 1, j, bs);
  }

  lemma OwnedBy(bs: nat, size: nat, p: nat, i: nat)
    requires Words(bs, size) && i * bs <= p < i * bs + bs && p < size
    ensures i < BlockCount(bs, size)
    ensures Offset(bs, i) <= p < Offset(bs, i) + Amount(bs, Offset(bs, i), size)
  {
    CountBounds(bs, size);
    if BlockCount(bs, size) <= i { MulMono(BlockCount(bs, size), i, bs); }
    BlockRange(bs, size, i);
  }

  /** `Index` sends every byte of the file to the block that holds it. */
  lemma IndexOwnsByte(bs: nat, size: nat, p: nat)
    requires Words(bs, size) && p < size
    ensures var i := Index(bs, p);
            && i < BlockCount(bs, size)
            && Offset(bs, i) <= p < Offset(bs, i) + Amount(bs, Offset(bs, i), size)
  {
    assert p == p / bs * bs + p % bs;
    OwnedBy(bs, size, p, p / bs);
  }

  /** `Index` undoes `Offset`. */
  lemma IndexOfOffset(bs: nat, size: nat, i: nat)
    requires Words(bs, size) && i < BlockCount(bs, size)
    ensures Index(bs, Offset(bs, i)) == i
  {
    BlockRange(bs, size, i);
    QuotientOf(bs, i, 0);
  }

  lemma QuotientOf(bs: nat, i: nat, r: nat)
    requires r < bs
    ensures (i * bs + r) / bs == i
  {
    var x := i * bs + r;
    var d := x / bs - i;
    assert d * bs == r - x % bs;
    if d > 0 { MulMono(1, d, bs); }
  }

  function AmountsBelow(bs: nat, size: nat, k: nat): nat {
    if k == 0 then 0 else AmountsBelow(bs, size, k - 1) + Amount(bs, Offset(bs, k - 1), size)
  }

  /** The amounts add up: the first `k` blocks hold the first `k * bs` bytes, all of them the file. */
  lemma {:induction false} AmountsTile(bs: nat, size: nat, k: nat)
    requires Words(bs, size) && k <= BlockCount(bs, size)
    ensures AmountsBelow(bs, size, k) == if k < BlockCount(bs, size) then k * bs else size
  {
    if k > 0 {
      AmountsTile(bs, size, k - 1);
      BlockRange(bs, size, k - 1);
    } else if size > 0 {
      CountBounds(bs, size);
    }
  }

  /** On full 64-bit inputs the end of the file is recognised exactly when the offset after the
      last block still fits in a word. */
  lemma EndSeenIff(bs: nat, size: nat)
    requires Words(bs, size) && size > 0
    ensures Offset(bs, BlockCount(bs, size)) >= size <==> BlockCount(bs, size) * bs < TWO_64
  {
    CountBounds(bs, size);
    var n := BlockCount(bs, size);
    assert n * bs == (n - 1) * bs + bs;
    if n * bs >= TWO_64 {
      assert n * bs % TWO_64 == n * bs - TWO_64;
    }
  }

  /** A size for which it is not: two blocks of 2^63 bytes each end at offset 0 again. */
  lemma EndMissed()
    ensures BlockCount(TWO_63, TWO_64 - 1) == 2
    ensures Offset(TWO_63, BlockCount(TWO_63, TWO_64 - 1)) == 0 < TWO_64 - 1
  {
  }

  // ---- reading and overwriting one range ----

  /** The bytes of `s` that block `i` covers. */
  function Range(s: seq<byte>, bs: nat, i: nat): (r: seq<byte>)
    ensures |r| == Amount(bs, Offset(bs, i), |s|)
  {
    var o := Offset(bs, i);
    if o >= |s| then [] else s[o..o + Amount(bs, o, |s|)]
  }

  function Splice(s: seq<byte>, offset: nat, data: seq<byte>): (r: seq<byte>)
    requires offset + |data| <= |s|
    ensures |r| == |s|
  {
    s[..offset] + data + s[offset + |data|..]
  }

  lemma SpliceSlice(s: seq<byte>, o: nat, data: seq<byte>, lo: nat, hi: nat)
    requires o + |data| <= |s| && lo <= hi <= |s|
    ensures lo == o && hi == o + |data| ==> Splice(s, o, data)[lo..hi] == data
    ensures hi <= o || o + |data| <= lo ==> Splice(s, o, data)[lo..hi] == s[lo..hi]
  {
  }

  lemma SpliceRange(s: seq<byte>, bs: nat, i: nat, data: seq<byte>, j: nat)
    requires Sized(bs, |s|) && i < BlockCount(bs, |s|) && j < BlockCount(bs, |s|)
    requires |data| == Amount(bs, Offset(bs, i), |s|)
    requires Offset(bs, i) + |data| <= |s|
    ensures Range(Splice(s, Offset(bs, i), data), bs, j) == if i == j then data else Range(s, bs, j)
  {
    BlockRange(bs, |s|, i);
    BlockRange(bs, |s|, j);
    if i < j { RangesDisjoint(bs, |s|, i, j); } else if j < i { RangesDisjoint(bs, |s|, j, i); }
    var o := Offset(bs, j);
    SpliceSlice(s, Offset(bs, i), data, o, o + Amount(bs, o, |s|));
  }

  /** Equal on every block means equal. */
  lemma RangesDetermine(s: seq<byte>, t: seq<byte>, bs: nat)
    requires Sized(bs, |s|) && |s| == |t|
    requires forall i {:trigger Range(s, bs, i)} :: 0 <= i < BlockCount(bs, |s|) ==> Range(s, bs, i) == Range(t, bs, i)
    ensures s == t
  {
    forall p | 0 <= p < |s|
      ensures s[p] == t[p]
    {
      IndexOwnsByte(bs, |s|, p);
      var i := Index(bs, p);
      var o := Offset(bs, i);
      assert s[p] == Range(s, bs, i)[p - o];
      assert t[p] == Range(t, bs, i)[p - o];
    }
  }
}
