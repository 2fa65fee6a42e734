/** Length-prefixed packets: two bytes of length, most significant first, then the data. */
module Packet {
  import opened Blocks

  const LENGTH_SIZE := 2
  const MAX_LENGTH := 65535

  type Packet = seq<byte>

  // ---- one packet ----

  function LengthOf(data: seq<byte>): Option<nat> {
    if |data| > MAX_LENGTH then None else Some(|data|)
  }

  function LengthBytes(n: nat): seq<byte>
    requires n <= MAX_LENGTH
  {
    [(n / 256) as byte, (n % 256) as byte]
  }

  function DecodeLength(raw: seq<byte>): Option<nat> {
    if |raw| != LENGTH_SIZE then None else Some(raw[0] as nat * 256 + raw[1] as nat)
  }

  function Frame(p: Packet): seq<byte>
    requires |p| <= MAX_LENGTH
  {
    LengthBytes(|p|) + p
  }

  function Decode(raw: seq<byte>): Option<Packet> {
    if |raw| < LENGTH_SIZE then None
    else
      var n := DecodeLength(raw[..LENGTH_SIZE]);
      if n.None? || |raw| - LENGTH_SIZE != n.value then None else Some(raw[LENGTH_SIZE..])
  }

  /** Reads a packet from a stream; a read that runs into the end consumes the stream and fails. */
  function DecodeFrom(stream: seq<byte>): (Option<Packet>, seq<byte>) {
    if |stream| < LENGTH_SIZE then (None, [])
    else
      var n := DecodeLength(stream[..LENGTH_SIZE]).value;
      var rest := stream[LENGTH_SIZE..];
      if |rest| < n then (None, []) else (Some(rest[..n]), rest[n..])
  }

  lemma LengthRoundTrip(n: nat)
    requires n <= MAX_LENGTH
    ensures DecodeLength(LengthBytes(n)) == Some(n)
  {
  }

  lemma LengthBytesRoundTrip(raw: seq<byte>)
    requires |raw| == LENGTH_SIZE
    ensures DecodeLength(raw).value <= MAX_LENGTH && LengthBytes(DecodeLength(raw).value) == raw
  {
  }

  /** Decoding succeeds exactly on frames, and gives back what was framed. */
  lemma DecodeIff(raw: seq<byte>, p: Packet)
    ensures Decode(raw) == Some(p) <==> |p| <= MAX_LENGTH && raw == Frame(p)
  {
    if |p| <= MAX_LENGTH && raw == Frame(p) {
      assert raw[..LENGTH_SIZE] == LengthBytes(|p|) && raw[LENGTH_SIZE..] == p;
      LengthRoundTrip(|p|);
    }
    if Decode(raw) == Some(p) {
      LengthBytesRoundTrip(raw[..LENGTH_SIZE]);
      assert raw == raw[..LENGTH_SIZE] + raw[LENGTH_SIZE..];
    }
  }

  /** A frame is read from a stream whatever follows it, and what follows is left. */
  lemma DecodeFromFrame(p: Packet, rest: seq<byte>)
    requires |p| <= MAX_LENGTH
    ensures DecodeFrom(Frame(p) + rest) == (Some(p), rest)
  {
    var stream := Frame(p) + rest;
    assert stream[..LENGTH_SIZE] == LengthBytes(|p|) && stream[LENGTH_SIZE..] == p + rest;
    LengthRoundTrip(|p|);
    assert (p + rest)[..|p|] == p && (p + rest)[|p|..] == rest;
  }

  /** A packet is read from a stream exactly if the stream starts with its frame. */
  lemma DecodeFromIff(stream: seq<byte>, p: Packet, rest: seq<byte>)
    ensures DecodeFrom(stream) == (Some(p), rest) <==> |p| <= MAX_LENGTH && stream == Frame(p) + rest
  {
    if |p| <= MAX_LENGTH && stream == Frame(p) + rest {
      DecodeFromFrame(p, rest);
    }
    if DecodeFrom(stream) == (Some(p), rest) {
      LengthBytesRoundTrip(stream[..LENGTH_SIZE]);
      assert stream == stream[..LENGTH_SIZE] + stream[LENGTH_SIZE..];
      assert stream[LENGTH_SIZE..] == p + rest;
    }
  }

  /** A frame that is cut short is never taken for a packet. */
  lemma TruncatedFails(p: Packet, k: nat)
    requires |p| <= MAX_LENGTH && k < |Frame(p)|
    ensures DecodeFrom(Frame(p)[..k]).0.None? && Decode(Frame(p)[..k]).None?
  {
    var cut := Frame(p)[..k];
    if k >= LENGTH_SIZE {
      assert cut[..LENGTH_SIZE] == LengthBytes(|p|);
      LengthRoundTrip(|p|);
    }
  }

  // ---- sequences of packets ----

  predicate Fits(ps: seq<Packet>) {
    forall i :: 0 <= i < |ps| ==> |ps[i]| <= MAX_LENGTH
  }

  function Frames(ps: seq<Packet>): seq<byte>
    requires Fits(ps)
  {
    if ps == [] then [] else Frame(ps[0]) + Frames(ps[1..])
  }

  function Size(p: Packet): nat {
    LENGTH_SIZE + |p|
  }

  function TotalSize(ps: seq<Packet>): nat {
    if ps == [] then 0 else Size(ps[0]) + TotalSize(ps[1..])
  }

  /** Reading a number of packets, one after the other. */
  function DecodeMany(stream: seq<byte>, n: nat): (Option<seq<Packet>>, seq<byte>) {
    if n == 0 then (Some([]), stream)
    else
      var (p, rest) := DecodeFrom(stream);
      if p.None? then (None, rest)
      else
        var (ps, end) := DecodeMany(rest, n - 1);
        if ps.None? then (None, end) else (Some([p.value] + ps.value), end)
  }

  /** Reading undoes writing and leaves whatever follows. */
  lemma {:induction false} SequenceRoundTrip(ps: seq<Packet>, tail: seq<byte>)
    requires Fits(ps)
    ensures DecodeMany(Frames(ps) + tail, |ps|) == (Some(ps), tail)
    ensures |Frames(ps)| == TotalSize(ps)
  {
    if ps == [] {
      assert Frames(ps) + tail == tail;
    } else {
      assert Frames(ps) + tail == Frame(ps[0]) + (Frames(ps[1..]) + tail);
      DecodeFromFrame(ps[0], Frames(ps[1..]) + tail);
      SequenceRoundTrip(ps[1..], tail);
      assert [ps[0]] + ps[1..] == ps;
    }
  }

  /** Different lists are never written the same. */
  lemma {:induction false} FramesInjective(ps: seq<Packet>, qs: seq<Packet>)
    requires Fits(ps) && Fits(qs)
    ensures Frames(ps) == Frames(qs) <==> ps == qs
    decreases |ps|
  {
    if ps != [] && qs != [] && Frames(ps) == Frames(qs) {
      DecodeFromFrame(ps[0], Frames(ps[1..]));
      DecodeFromFrame(qs[0], Frames(qs[1..]));
      FramesInjective(ps[1..], qs[1..]);
      assert ps == [ps[0]] + ps[1..] && qs == [qs[0]] + qs[1..];
    }
  }

  /** A list that was cut off anywhere cannot be read. */
  lemma {:induction false} TruncatedSequence(ps: seq<Packet>, k: nat)
    requires Fits(ps) && k < |Frames(ps)|
    ensures DecodeMany(Frames(ps)[..k], |ps|).0.None?
  {
    var first, rest := Frame(ps[0]), Frames(ps[1..]);
    if k < |first| {
      assert Frames(ps)[..k] == first[..k];
      TruncatedFails(ps[0], k);
    } else {
      assert Frames(ps)[..k] == first + rest[..k - |first|];
      DecodeFromFrame(ps[0], rest[..k - |first|]);
      TruncatedSequence(ps[1..], k - |first|);
    }
  }

  // ---- streams ----

  /** A writer that takes `room` more bytes. */
  class Sink {
    var out: seq<byte>
    var room: nat

    method Write(b: seq<byte>) returns (n: nat, ok: bool)
      modifies this
      ensures ok <==> |b| <= old(room)
      ensures n == (if ok then |b| else old(room)) && out == old(out) + b[..n] && room == old(room) - n
    {
      ok := |b| <= room;
      n := if ok then |b| else room;
      out, room := out + b[..n], room - n;
    }
  }

  /** Writes a packet. The count that is returned with an error leaves out a header that was written in part. */
  method WriteTo(w: Sink, p: Packet) returns (n: nat, ok: bool)
    modifies w
    ensures ok <==> |p| <= MAX_LENGTH && Size(p) <= old(w.room)
    ensures ok ==> w.out == old(w.out) + Frame(p) && n == Size(p) && w.room == old(w.room) - n
    ensures !ok && |p| > MAX_LENGTH ==> n == 0 && w.out == old(w.out) && w.room == old(w.room)
    ensures !ok && |p| <= MAX_LENGTH ==> w.room == 0 && w.out == old(w.out) + Frame(p)[..old(w.room)]
                                         && n == if old(w.room) < LENGTH_SIZE then 0 else old(w.room)
  {
    var length := LengthOf(p);
    if length.None? {
      return 0, false;
    }
    var n1, ok1 := w.Write(LengthBytes(length.value));
    if !ok1 {
      assert LengthBytes(|p|)[..n1] == Frame(p)[..n1];
      return 0, false;
    }
    var n2;
    n2, ok := w.Write(p);
    n := n1 + n2;
    assert LengthBytes(|p|)[..n1] + p[..n2] == Frame(p)[..n];
    assert ok ==> Frame(p)[..n] == Frame(p);
  }

  lemma {:induction false} FramesSnoc(ps: seq<Packet>, p: Packet)
    requires Fits(ps) && |p| <= MAX_LENGTH
    ensures Fits(ps + [p]) && Frames(ps + [p]) == Frames(ps) + Frame(p)
    ensures TotalSize(ps + [p]) == TotalSize(ps) + Size(p)
  {
    if ps == [] {
      assert ps + [p] == [p] && [p][1..] == [];
    } else {
      assert (ps + [p])[1..] == ps[1..] + [p];
      FramesSnoc(ps[1..], p);
    }
  }

  /** Writes a list of packets. It succeeds exactly if each of them fits and there is room for all. */
  method WriteSequence(w: Sink, ps: seq<Packet>) returns (n: nat, ok: bool)
    modifies w
    ensures ok <==> Fits(ps) && TotalSize(ps) <= old(w.room)
    ensures ok ==> w.out == old(w.out) + Frames(ps) && n == TotalSize(ps)
  {
    n, ok := 0, true;
    assert ps[..0] == [];
    for i := 0 to |ps|
      invariant ok && Fits(ps[..i]) && n == TotalSize(ps[..i]) && n + w.room == old(w.room)
      invariant w.out == old(w.out) + Frames(ps[..i])
    {
      var m;
      m, ok := WriteTo(w, ps[i]);
      n := n + m;
      if !ok {
        TooMuch(ps, i);
        return;
      }
      OneMore(ps, i);
    }
    assert ps[..|ps|] == ps;
  }

  lemma OneMore(ps: seq<Packet>, i: nat)
    requires i < |ps| && Fits(ps[..i]) && |ps[i]| <= MAX_LENGTH
    ensures Fits(ps[..i + 1]) && Frames(ps[..i + 1]) == Frames(ps[..i]) + Frame(ps[i])
    ensures TotalSize(ps[..i + 1]) == TotalSize(ps[..i]) + Size(ps[i])
  {
    FramesSnoc(ps[..i], ps[i]);
    assert ps[..i] + [ps[i]] == ps[..i + 1];
  }

  /** A list takes at least as much room as any of its first packets together. */
  lemma {:induction false} TooMuch(ps: seq<Packet>, i: nat)
    requires i < |ps|
    ensures TotalSize(ps[..i]) + Size(ps[i]) <= TotalSize(ps)
  {
    if i > 0 {
      assert ps[..i][1..] == ps[1..][..i - 1];
      TooMuch(ps[1..], i - 1);
    }
  }

  /** A reader over the bytes that are still to come. */
  class Source {
    var data: seq<byte>

    /** Reads exactly so many bytes, or runs into the end. */
    method ReadFull(n: nat) returns (b: Option<seq<byte>>)
      modifies this
      ensures b.Some? <==> n <= |old(data)|
      ensures b.Some? ==> old(data) == b.value + data && |b.value| == n
      ensures b.None? ==> data == []
    {
      if n > |data| {
        data := [];
        return None;
      }
      b := Some(data[..n]);
      data := data[n..];
    }

    method DecodePacket() returns (p: Option<Packet>)
      modifies this
      ensures (p, data) == DecodeFrom(old(data))
    {
      var header := ReadFull(LENGTH_SIZE);
      if header.None? {
        return None;
      }
      var length := DecodeLength(header.value);
      assert header.value == old(data)[..LENGTH_SIZE] && data == old(data)[LENGTH_SIZE..];
      ghost var rest := data;
      p := ReadFull(length.value);
      assert p.Some? ==> p.value == rest[..length.value] && data == rest[length.value..];
    }
  }
}
