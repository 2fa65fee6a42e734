/** What passes through one direction of a relayed session: chunk by chunk, each read in full and written as far as the
    other side takes it. */
module RelayFlow {
  import opened Blocks

  const SESSION_BUF_SIZE := 1024

  /** A chunk that was read, and how many of its bytes were then written. */
  datatype Piece = Piece(chunk: seq<byte>, taken: nat)

  ghost predicate Possible(ps: seq<Piece>) {
    forall i :: 0 <= i < |ps| ==> ps[i].taken <= |ps[i].chunk|
  }

  ghost function Chunks(ps: seq<Piece>): seq<byte> {
    if ps == [] then [] else Chunks(ps[..|ps| - 1]) + ps[|ps| - 1].chunk
  }

  ghost function Taken(ps: seq<Piece>): seq<byte>
    requires Possible(ps)
  {
    if ps == [] then [] else Taken(ps[..|ps| - 1]) + ps[|ps| - 1].chunk[..ps[|ps| - 1].taken]
  }

  /** The numbers from `lo` on. */
  ghost function From(lo: nat, n: nat): seq<nat> {
    seq(n, k => lo + k)
  }

  /** Where in all that was read each written byte comes from. */
  ghost function Origins(ps: seq<Piece>): seq<nat>
    requires Possible(ps)
  {
    if ps == [] then []
    else Origins(ps[..|ps| - 1]) + From(|Chunks(ps[..|ps| - 1])|, ps[|ps| - 1].taken)
  }

  /** Once a write was short, no later write takes a byte. */
  ghost predicate Quits(ps: seq<Piece>) {
    forall i, j :: 0 <= i < j < |ps| && ps[i].taken < |ps[i].chunk| ==> ps[j].taken == 0
  }

  lemma Snoc(ps: seq<Piece>, p: Piece)
    requires Possible(ps) && p.taken <= |p.chunk|
    ensures Possible(ps + [p]) && Chunks(ps + [p]) == Chunks(ps) + p.chunk
    ensures Taken(ps + [p]) == Taken(ps) + p.chunk[..p.taken]
    ensures Origins(ps + [p]) == Origins(ps) + From(|Chunks(ps)|, p.taken)
  {
    assert (ps + [p])[..|ps|] == ps;
  }

  /** Every written byte is the byte that was read at its origin, and the order is kept. */
  lemma {:induction false} OriginsExact(ps: seq<Piece>)
    requires Possible(ps)
    ensures |Origins(ps)| == |Taken(ps)| <= |Chunks(ps)|
    ensures forall k :: 0 <= k < |Taken(ps)| ==>
              Origins(ps)[k] < |Chunks(ps)| && Taken(ps)[k] == Chunks(ps)[Origins(ps)[k]]
    ensures forall j, k :: 0 <= j < k < |Origins(ps)| ==> Origins(ps)[j] < Origins(ps)[k]
  {
    if ps != [] {
      OriginsExact(ps[..|ps| - 1]);
    }
  }

  ghost predicate AllTaken(ps: seq<Piece>) {
    forall i :: 0 <= i < |ps| ==> ps[i].taken == |ps[i].chunk|
  }

  /** While no write was short everything was written. */
  lemma {:induction false} WholeTaken(ps: seq<Piece>)
    requires Possible(ps) && AllTaken(ps)
    ensures Taken(ps) == Chunks(ps)
  {
    if ps != [] {
      WholeTaken(ps[..|ps| - 1]);
    }
  }

  lemma FromSplit(lo: nat, m: nat, n: nat)
    ensures From(lo, m) + From(lo + m, n) == From(lo, m + n)
  {
  }

  lemma {:induction false} QuitsOrigins(ps: seq<Piece>)
    requires Possible(ps) && Quits(ps)
    ensures Origins(ps) == From(0, |Taken(ps)|)
  {
    if ps != [] {
      var front, p := ps[..|ps| - 1], ps[|ps| - 1];
      QuitsOrigins(front);
      assert front + [p] == ps;
      Snoc(front, p);
      assert p.taken == 0 || |Chunks(front)| == |Taken(front)| by {
        if AllTaken(front) {
          WholeTaken(front);
        } else {
          var i :| 0 <= i < |front| && front[i].taken < |front[i].chunk|;
          assert ps[i] == front[i];
        }
      }
      FromSplit(0, |Taken(front)|, p.taken);
    }
  }

  /** If a short write ends the writing, the written bytes are a prefix of what was read. */
  lemma QuitsPrefix(ps: seq<Piece>)
    requires Possible(ps) && Quits(ps)
    ensures Taken(ps) <= Chunks(ps)
  {
    QuitsOrigins(ps);
    OriginsExact(ps);
    assert forall k :: 0 <= k < |Taken(ps)| ==> Origins(ps)[k] == k;
  }

  /** A byte that is written after a short write comes from further back than its place. */
  lemma {:induction false} ShortSkips(ps: seq<Piece>)
    requires Possible(ps)
    ensures (exists i :: 0 <= i < |ps| && ps[i].taken < |ps[i].chunk|) ==> |Taken(ps)| < |Chunks(ps)|
  {
    if ps != [] {
      var front := ps[..|ps| - 1];
      ShortSkips(front);
      OriginsExact(front);
      if i :| 0 <= i < |ps| && ps[i].taken < |ps[i].chunk| && i < |front| {
        assert front[i] == ps[i];
      }
    }
  }

  /** The written bytes are the first bytes that were read, byte after byte, exactly if a short write ends the
      writing. */
  lemma {:induction false} PrefixIff(ps: seq<Piece>)
    requires Possible(ps)
    ensures Origins(ps) == From(0, |Taken(ps)|) <==> Quits(ps)
  {
    if Quits(ps) {
      QuitsOrigins(ps);
    } else {
      var front, p := ps[..|ps| - 1], ps[|ps| - 1];
      OriginsExact(front);
      OriginsExact(ps);
      PrefixIff(front);
      if Quits(front) {
        var i, j :| 0 <= i < j < |ps| && ps[i].taken < |ps[i].chunk| && ps[j].taken != 0;
        assert j == |front| && front[i] == ps[i];
        ShortSkips(front);
        assert Origins(ps)[|Taken(front)|] == |Chunks(front)|;
      } else {
        assert Origins(front) == Origins(ps)[..|Taken(front)|];
      }
    }
  }

  // ---- the loop of one relay ----

  /** What one turn of the loop meets: a chunk or a failing read, a write that is short only if it fails, and what the
      error variable holds when it is checked. The relay of the other direction uses the same variable, so that need not
      be the outcome of this write. */
  datatype Turn = Turn(chunk: seq<byte>, readFails: bool, written: nat, writeFails: bool, errSeen: bool)

  predicate Legal(t: Turn) {
    |t.chunk| <= SESSION_BUF_SIZE && t.written <= |t.chunk| && (!t.writeFails ==> t.written == |t.chunk|)
  }

  /** A chunk that comes with a failing read is dropped. */
  function Moves(t: Turn): Piece {
    Piece(t.chunk, if t.readFails then 0 else t.written)
  }

  predicate Ends(t: Turn) {
    t.readFails || t.errSeen
  }

  /** A read puts its bytes at the start of the buffer. */
  method Fill(buf: array<byte>, chunk: seq<byte>)
    requires |chunk| <= buf.Length
    modifies buf
    ensures buf[..|chunk|] == chunk
  {
    for k := 0 to |chunk|
      invariant buf[..k] == chunk[..k]
    {
      buf[k] := chunk[k];
    }
  }

  /** One turn: a read into the buffer, a write out of it, and the check of the error. */
  method TakeTurn(t: Turn, buf: array<byte>) returns (read: seq<byte>, wrote: seq<byte>, stop: bool)
    requires Legal(t) && buf.Length == SESSION_BUF_SIZE
    modifies buf
    ensures read == t.chunk && wrote == t.chunk[..Moves(t).taken] && (stop <==> Ends(t))
  {
    Fill(buf, t.chunk);
    read := buf[..|t.chunk|];
    if t.readFails {
      return read, [], true;
    }
    wrote := read[..t.written];
    stop := t.errSeen;
  }

  /** How many turns the loop takes: up to the first one that ends it. */
  ghost function Taking(turns: seq<Turn>): (n: nat)
    ensures n <= |turns| && forall k :: 0 <= k < n - 1 ==> !Ends(turns[k])
    ensures n < |turns| ==> n > 0 && Ends(turns[n - 1])
  {
    if turns == [] then 0 else if Ends(turns[0]) then 1 else 1 + Taking(turns[1..])
  }

  /** What the first turns move. */
  ghost function Moved(turns: seq<Turn>, n: nat): (ps: seq<Piece>)
    requires n <= |turns|
    ensures |ps| == n && forall i :: 0 <= i < n ==> ps[i] == Moves(turns[i])
  {
    seq(n, i requires 0 <= i < n => Moves(turns[i]))
  }

  lemma MovedStep(turns: seq<Turn>, i: nat)
    requires i < |turns| && (forall k :: 0 <= k < |turns| ==> Legal(turns[k]))
    ensures var ps, p := Moved(turns, i), Moves(turns[i]);
            && Possible(ps) && Possible(Moved(turns, i + 1))
            && Chunks(Moved(turns, i + 1)) == Chunks(ps) + p.chunk
            && Taken(Moved(turns, i + 1)) == Taken(ps) + p.chunk[..p.taken]
  {
    Snoc(Moved(turns, i), Moves(turns[i]));
    assert Moved(turns, i + 1) == Moved(turns, i) + [Moves(turns[i])];
  }

  /** The loop with its one buffer reads and writes what the turns move up to the first one that ends it. What it has
      written is a prefix of what it has read unless a write goes on behind a short one. */
  method CopyLoop(turns: seq<Turn>, buf: array<byte>) returns (got: seq<byte>, sent: seq<byte>)
    requires buf.Length == SESSION_BUF_SIZE && forall i :: 0 <= i < |turns| ==> Legal(turns[i])
    modifies buf
    ensures var ps := Moved(turns, Taking(turns));
            && Possible(ps) && got == Chunks(ps) && sent == Taken(ps)
            && (Quits(ps) ==> sent <= got)
  {
    got, sent := [], [];
    var i, stop := 0, false;
    while i < |turns| && !stop
      invariant i <= |turns| && (forall k :: 0 <= k < i - 1 ==> !Ends(turns[k]))
      invariant if stop then i > 0 && Ends(turns[i - 1]) else i > 0 ==> !Ends(turns[i - 1])
      invariant Possible(Moved(turns, i)) && got == Chunks(Moved(turns, i)) && sent == Taken(Moved(turns, i))
    {
      MovedStep(turns, i);
      var read, wrote;
      read, wrote, stop := TakeTurn(turns[i], buf);
      got, sent, i := got + read, sent + wrote, i + 1;
    }
    assert i == Taking(turns);
    if Quits(Moved(turns, i)) {
      QuitsPrefix(Moved(turns, i));
    }
  }
}
