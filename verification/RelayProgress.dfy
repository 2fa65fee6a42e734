/** Any two connected clients can set up a session and send bytes through it, from every state of the relay server. */
module RelayProgress {
  import opened Blocks
  import opened RelayFlow
  import opened RelayTables
  import opened Relay
  import Safety = RelaySafety
  import Runs

  type Next = (Server, Action, Server) -> bool

  ghost predicate Steps(next: Next) {
    forall x, a, z :: next(x, a, z) <==> Step(x, a, z)
  }

  /** One more action at the end of a run. */
  lemma Go(next: Next, start: Server, acts: seq<Action>, x: Server, a: Action) returns (more: seq<Action>, z: Server)
    requires Steps(next) && Runs.Reaches(start, next, acts, x) && Enabled(x, a)
    ensures z == Apply(x, a) && Runs.Reaches(start, next, more, z)
  {
    z := Apply(x, a);
    Runs.Snoc(start, next, acts, x, a, z);
    more := acts + [a];
  }

  /** The handler of a session that was set up and accepted. */
  function Accepted(y: Server, v: nat, w: nat, key1: Key, key2: Key): Handler
    requires v < |y.visitors| && w < |y.visitors|
  {
    var a, b := y.visitors[v].identity, y.visitors[w].identity;
    Handler(Identifier(a, b), a, b, v, w, [b], Gathering, false, NewEnd(key1), NewEnd(key2))
  }

  ghost predicate CanSetUp(y: Server, v: nat, w: nat, key1: Key, key2: Key) {
    && v < |y.visitors| && y.visitors[v].phase == Serving && w < |y.visitors| && y.visitors[w].phase == Serving
    && Identifier(y.visitors[v].identity, y.visitors[w].identity) !in y.reg.sessions
    && key1 != key2 && FreshKey(y.handlers, key1) && FreshKey(y.handlers, key2)
  }

  /** A session with this handler is in the tables under both keys. */
  ghost predicate Listed(z: Server, h: nat, x: Handler) {
    && !z.panicked && h < |z.handlers| && z.handlers[h] == x
    && x.first.key in z.reg.keys && z.reg.keys[x.first.key] == KeyHandle(x.id, h, First)
    && x.second.key in z.reg.keys && z.reg.keys[x.second.key] == KeyHandle(x.id, h, Second)
  }

  /** The initiator has asked for the session. */
  lemma SetUp(next: Next, y: Server, v: nat, w: nat, key1: Key, key2: Key) returns (acts: seq<Action>, z: Server)
    requires Steps(next) && !y.panicked && Safety.VisitorsOk(y.clients, y.visitors) && CanSetUp(y, v, w, key1, key2)
    ensures Runs.Reaches(y, next, acts, z) && z.conns == y.conns && z.visitors == y.visitors
    ensures var x := Accepted(y, v, w, key1, key2);
            && Listed(z, |y.handlers|, x.(accepts := []))
            && x.id in z.reg.sessions && !z.reg.sessions[x.id].accepted && z.reg.sessions[x.id].handler == |y.handlers|
  {
    var b := y.visitors[w].identity;
    assert b in y.clients && y.clients[b] == w;
    acts, z := Go(next, y, [], y, Request(v, b));
    acts, z := Go(next, y, acts, z, Create(v, key1, key2));
    assert z.visitors == y.visitors;
  }

  /** The target has accepted it. */
  lemma AcceptIt(next: Next, y: Server, acts: seq<Action>, s: Server, w: nat, h: nat, x: Handler)
    returns (more: seq<Action>, z: Server)
    requires Steps(next) && Runs.Reaches(y, next, acts, s) && Listed(s, h, x.(accepts := []))
    requires x.id == Identifier(x.initiator, x.target) && x.accepts == [x.target]
    requires x.id in s.reg.sessions && !s.reg.sessions[x.id].accepted && s.reg.sessions[x.id].handler == h
    requires w < |s.visitors| && s.visitors[w] == Visitor(x.target, Serving)
    ensures Runs.Reaches(y, next, more, z) && Listed(z, h, x) && z.conns == s.conns
  {
    more, z := Go(next, y, acts, s, Accept(w, x.initiator));
  }

  /** The two connections that were presented for a session, and what the server knows of them. */
  ghost predicate Paired(z: Server, h: nat, c: nat, x: Handler, place1: Place, place2: Place) {
    && !z.panicked && h < |z.handlers| && z.handlers[h] == x && |z.conns| == c + 2
    && z.conns[c] == Conn(x.first.key, place1, [], []) && z.conns[c + 1] == Conn(x.second.key, place2, [], [])
  }

  lemma PresentBoth(next: Next, y: Server, acts: seq<Action>, s: Server, h: nat, x: Handler)
    returns (more: seq<Action>, z: Server)
    requires Steps(next) && Runs.Reaches(y, next, acts, s) && Listed(s, h, x)
    ensures Runs.Reaches(y, next, more, z) && Paired(z, h, |s.conns|, x, Offered(h, First), Offered(h, Second))
    ensures z.conns[..|s.conns|] == s.conns
  {
    more, z := Go(next, y, acts, s, Present(x.first.key));
    more, z := Go(next, y, more, z, Present(x.second.key));
  }

  function Seating(x: Handler, first: Seat, second: Seat): Handler {
    x.(first := x.first.(seat := first), second := x.second.(seat := second))
  }

  lemma AttachBoth(next: Next, y: Server, acts: seq<Action>, s: Server, h: nat, c: nat, x: Handler)
    returns (more: seq<Action>, z: Server)
    requires Steps(next) && Runs.Reaches(y, next, acts, s) && Paired(s, h, c, x, Offered(h, First), Offered(h, Second))
    requires x.first.seat == Vacant && x.second.seat == Vacant
    ensures Runs.Reaches(y, next, more, z)
    ensures Paired(z, h, c, Seating(x, Joined(c), Joined(c + 1)), Seated(h, First), Seated(h, Second))
  {
    more, z := Go(next, y, acts, s, Attach(c));
    more, z := Go(next, y, more, z, Attach(c + 1));
  }

  lemma RespondBoth(next: Next, y: Server, acts: seq<Action>, s: Server, h: nat, c: nat, x: Handler)
    returns (more: seq<Action>, z: Server)
    requires Steps(next) && Runs.Reaches(y, next, acts, s) && Paired(s, h, c, x, Seated(h, First), Seated(h, Second))
    requires x.first.seat == Joined(c) && x.second.seat == Joined(c + 1)
    ensures Runs.Reaches(y, next, more, z)
    ensures Paired(z, h, c, Seating(x, Ready(c), Ready(c + 1)), Seated(h, First), Seated(h, Second))
  {
    more, z := Go(next, y, acts, s, Respond(h, First, true));
    more, z := Go(next, y, more, z, Respond(h, Second, true));
  }

  lemma StartRelay(next: Next, y: Server, acts: seq<Action>, s: Server, h: nat, c: nat, x: Handler)
    returns (more: seq<Action>, z: Server)
    requires Steps(next) && Runs.Reaches(y, next, acts, s) && Paired(s, h, c, x, Seated(h, First), Seated(h, Second))
    requires x.first.seat == Ready(c) && x.second.seat == Ready(c + 1) && x.phase == Gathering && x.accepts != []
    ensures Runs.Reaches(y, next, more, z)
    ensures Paired(z, h, c, x.(phase := Relaying), Seated(h, First), Seated(h, Second))
  {
    more, z := Go(next, y, acts, s, Gather(h));
    more, z := Go(next, y, more, z, Begin(h));
  }

  /** A relay that waits to read, and its two connections. */
  ghost predicate Waits(s: Server, h: nat, side: Side, own: nat, other: nat) {
    && !s.panicked && Started(s, h, side) && s.handlers[h].At(side).loop == Reading && own != other
    && s.handlers[h].At(side).seat == Ready(own) && s.handlers[h].At(Other(side)).seat == Ready(other)
  }

  /** A chunk is read, and some of it is written to the other side. */
  lemma Half(next: Next, y: Server, acts: seq<Action>, s: Server, h: nat, side: Side, own: nat, other: nat,
             chunk: seq<byte>, n: nat, ok: bool)
    returns (more: seq<Action>, z: Server)
    requires Steps(next) && Runs.Reaches(y, next, acts, s) && Waits(s, h, side, own, other)
    requires n <= |chunk| <= SESSION_BUF_SIZE && (ok ==> n == |chunk|)
    ensures Runs.Reaches(y, next, more, z) && !z.panicked && |z.conns| == |s.conns|
    ensures |z.handlers| == |s.handlers| && z.handlers[h].phase == s.handlers[h].phase && z.handlers[h].err == !ok
    ensures var was := s.handlers[h].At(side);
            z.handlers[h].At(side) == was.(loop := Checking, moved := was.moved + [Piece(chunk, n)])
    ensures z.handlers[h].At(Other(side)) == s.handlers[h].At(Other(side))
    ensures z.conns[own] == s.conns[own].(got := s.conns[own].got + chunk)
    ensures z.conns[other] == s.conns[other].(sent := s.conns[other].sent + chunk[..n])
  {
    more, z := Go(next, y, acts, s, Pull(h, side, chunk));
    more, z := Go(next, y, more, z, Push(h, side, n, ok));
  }

  /** The error of the last write in the session is checked, and there is none. */
  lemma GoesOn(next: Next, y: Server, acts: seq<Action>, s: Server, h: nat, side: Side)
    returns (more: seq<Action>, z: Server)
    requires Steps(next) && Runs.Reaches(y, next, acts, s) && !s.panicked && Started(s, h, side)
    requires s.handlers[h].At(side).loop == Checking && !s.handlers[h].err
    ensures Runs.Reaches(y, next, more, z) && !z.panicked && z.conns == s.conns
    ensures |z.handlers| == |s.handlers| && z.handlers[h].phase == s.handlers[h].phase && !z.handlers[h].err
    ensures z.handlers[h].At(side) == s.handlers[h].At(side).(loop := Reading)
    ensures z.handlers[h].At(Other(side)) == s.handlers[h].At(Other(side))
  {
    more, z := Go(next, y, acts, s, Check(h, side));
  }

  lemma ConnectBoth(next: Next, y: Server, acts: seq<Action>, s: Server, h: nat, x: Handler)
    returns (more: seq<Action>, z: Server)
    requires Steps(next) && Runs.Reaches(y, next, acts, s) && Listed(s, h, x)
    requires x.first.seat == Vacant && x.second.seat == Vacant && x.phase == Gathering && x.accepts != []
    ensures Runs.Reaches(y, next, more, z)
    ensures var c := |s.conns|;
            Paired(z, h, c, Seating(x, Ready(c), Ready(c + 1)).(phase := Relaying), Seated(h, First), Seated(h, Second))
  {
    var c := |s.conns|;
    more, z := PresentBoth(next, y, acts, s, h, x);
    more, z := AttachBoth(next, y, more, z, h, c, x);
    more, z := RespondBoth(next, y, more, z, h, c, Seating(x, Joined(c), Joined(c + 1)));
    more, z := StartRelay(next, y, more, z, h, c, Seating(x, Ready(c), Ready(c + 1)));
  }

  ghost predicate JustStarted(x: Handler, c: nat) {
    && x.phase == Relaying && x.first == End(x.first.key, Ready(c), Reading, [])
    && x.second == End(x.second.key, Ready(c + 1), Reading, [])
  }

  lemma SendBoth(next: Next, y: Server, acts: seq<Action>, s: Server, h: nat, c: nat, x: Handler, there: seq<byte>,
                 back: seq<byte>)
    returns (more: seq<Action>, z: Server)
    requires Steps(next) && Runs.Reaches(y, next, acts, s) && Paired(s, h, c, x, Seated(h, First), Seated(h, Second))
    requires JustStarted(x, c) && |there| <= SESSION_BUF_SIZE && |back| <= SESSION_BUF_SIZE
    ensures Runs.Reaches(y, next, more, z) && |z.conns| == c + 2
    ensures z.conns[c] == Conn(x.first.key, Seated(h, First), there, back)
    ensures z.conns[c + 1] == Conn(x.second.key, Seated(h, Second), back, there)
  {
    more, z := Half(next, y, acts, s, h, First, c, c + 1, there, |there|, true);
    more, z := Half(next, y, more, z, h, Second, c + 1, c, back, |back|, true);
    assert there[..|there|] == there && back[..|back|] == back;
  }

  lemma Sound(acts: seq<Action>, y: Server)
    requires Reaches(acts, y)
    ensures !y.panicked && Safety.VisitorsOk(y.clients, y.visitors)
  {
    Safety.EveryRun(acts, y);
  }

  /** From every state that the server can reach, two clients that are being served and have no session can set one up
      with fresh keys, connect with the keys, and send a chunk each way; each side then has what the other one sent. */
  lemma SessionsWork(acts: seq<Action>, y: Server, v: nat, w: nat, key1: Key, key2: Key, there: seq<byte>,
                     back: seq<byte>)
    returns (more: seq<Action>, z: Server)
    requires Reaches(acts, y) && CanSetUp(y, v, w, key1, key2)
    requires |there| <= SESSION_BUF_SIZE && |back| <= SESSION_BUF_SIZE
    ensures Runs.Reaches(y, (x, a, x') => Step(x, a, x'), more, z)
    ensures |z.conns| == |y.conns| + 2
    ensures z.conns[|y.conns|] == Conn(key1, Seated(|y.handlers|, First), there, back)
    ensures z.conns[|y.conns| + 1] == Conn(key2, Seated(|y.handlers|, Second), back, there)
  {
    Sound(acts, y);
    var next := (x, a, x') => Step(x, a, x');
    var h, c, x := |y.handlers|, |y.conns|, Accepted(y, v, w, key1, key2);
    more, z := SetUp(next, y, v, w, key1, key2);
    more, z := AcceptIt(next, y, more, z, w, h, x);
    more, z := ConnectBoth(next, y, more, z, h, x);
    more, z := SendBoth(next, y, more, z, h, c, Seating(x, Ready(c), Ready(c + 1)).(phase := Relaying), there, back);
  }

  /** The first relay writes one byte of two and fails, the second relay writes and so clears the error, and the
      first one goes on. */
  lemma Skip(next: Next, y: Server, acts: seq<Action>, s: Server, h: nat, c: nat, x: Handler)
    returns (more: seq<Action>, z: Server)
    requires Steps(next) && Runs.Reaches(y, next, acts, s) && Paired(s, h, c, x, Seated(h, First), Seated(h, Second))
    requires JustStarted(x, c)
    ensures Runs.Reaches(y, next, more, z) && |z.conns| == c + 2
    ensures z.conns[c].got == [1, 2, 3] && z.conns[c + 1].sent == [1, 3]
  {
    more, z := Half(next, y, acts, s, h, First, c, c + 1, [1, 2], 1, false);
    more, z := Half(next, y, more, z, h, Second, c + 1, c, [9], 1, true);
    more, z := GoesOn(next, y, more, z, h, First);
    more, z := Half(next, y, more, z, h, First, c, c + 1, [3], 1, true);
  }

  /** From every state from which a session can be set up there is a run in which a byte is lost between two that
      arrive, because the two relays of a session share one error variable. */
  lemma SharedErrorSkips(acts: seq<Action>, y: Server, v: nat, w: nat, key1: Key, key2: Key)
    returns (more: seq<Action>, z: Server)
    requires Reaches(acts, y) && CanSetUp(y, v, w, key1, key2)
    ensures Runs.Reaches(y, (x, a, x') => Step(x, a, x'), more, z)
    ensures |z.conns| == |y.conns| + 2
    ensures var c := |y.conns|; !(z.conns[c + 1].sent <= z.conns[c].got)
  {
    Sound(acts, y);
    var next := (x, a, x') => Step(x, a, x');
    var h, c, x := |y.handlers|, |y.conns|, Accepted(y, v, w, key1, key2);
    more, z := SetUp(next, y, v, w, key1, key2);
    more, z := AcceptIt(next, y, more, z, w, h, x);
    more, z := ConnectBoth(next, y, more, z, h, x);
    more, z := Skip(next, y, more, z, h, c, Seating(x, Ready(c), Ready(c + 1)).(phase := Relaying));
    assert z.conns[c + 1].sent[1] != z.conns[c].got[1];
  }
}
