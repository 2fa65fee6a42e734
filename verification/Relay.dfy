/** The relay server as a state machine: the client loop, the session loop, one goroutine for each client, session,
    session connection and direction of a session. A step is one interaction with a table, a channel or a socket. */
module Relay {
  import opened Blocks
  import opened RelayFlow
  import opened RelayTables
  import Runs

  /** A goroutine that serves a client: greeting it, serving it, or between the two tables with a request for a session
      whose target was found. A client whose greeting could not be written is `Lost`, and stays in the table. */
  datatype VisitorPhase = Greeting | Lost | Serving | Requesting(target: Identity, peer: nat) | Gone

  datatype Visitor = Visitor(identity: Identity, phase: VisitorPhase)

  /** What a session handler has on one side: nothing, a connection that was handed over, a connection that was told so,
      or a failure. */
  datatype Seat = Vacant | Joined(conn: nat) | Ready(conn: nat) | Broken(had: Option<nat>)

  /** Where the loop is that copies from one side: reading, with a chunk to write, with a write behind it whose error is
      to be checked, or at its end. */
  datatype Loop = Reading | Writing(chunk: seq<byte>) | Checking | Stopped

  /** One side of a session: its key, its connection, the relay that reads from it and what that has moved. */
  datatype End = End(key: Key, seat: Seat, loop: Loop, moved: seq<Piece>)

  datatype HandlerPhase = Gathering | Failed | Awaiting | Relaying | Closed

  /** A session handler. `host` and `guest` are the clients that were told the two keys, `accepts` lists who accepted.
      `err` is the error variable that both relays of the session write to and check. */
  datatype Handler = Handler(id: string, initiator: Identity, target: Identity, host: nat, guest: nat,
                             accepts: seq<Identity>, phase: HandlerPhase, err: bool, first: End, second: End)
  {
    function At(side: Side): End {
      if side == First then first else second
    }

    function With(side: Side, end: End): Handler {
      if side == First then this.(first := end) else this.(second := end)
    }
  }

  /** A session connection after its key was looked up. */
  datatype Place = Offered(handler: nat, side: Side) | Seated(handler: nat, side: Side) | Away

  /** `got` and `sent` are what the relay has read from the connection and written to it. */
  datatype Conn = Conn(key: Key, place: Place, got: seq<byte>, sent: seq<byte>)

  datatype Server = Server(clients: map<Identity, nat>, visitors: seq<Visitor>, reg: Registry, handlers: seq<Handler>,
                           conns: seq<Conn>, panicked: bool)

  const START := Server(map[], [], Registry(map[], map[]), [], [], false)

  datatype Action =
    | Connect(identity: Identity)
    | Greet(v: nat, ok: bool)
    | Request(v: nat, target: Identity)
    | Create(v: nat, key1: Key, key2: Key)
    | Accept(v: nat, initiator: Identity)
    | Depart(v: nat)
    | Present(key: Key)
    | Attach(c: nat)
    | Refuse(c: nat)
    | Respond(h: nat, side: Side, ok: bool)
    | TimeOut(h: nat, side: Side)
    | Gather(h: nat)
    | Begin(h: nat)
    | Pull(h: nat, side: Side, chunk: seq<byte>)
    | Push(h: nat, side: Side, n: nat, ok: bool)
    | Check(h: nat, side: Side)
    | Fault(h: nat, side: Side, chunk: seq<byte>)
    | Finish(h: nat)

  /** A key that no session has or had. */
  predicate FreshKey(handlers: seq<Handler>, k: Key) {
    forall h :: 0 <= h < |handlers| ==> handlers[h].first.key != k && handlers[h].second.key != k
  }

  /** The relay from one side to the other was started. */
  predicate Started(y: Server, h: nat, side: Side) {
    && h < |y.handlers| && y.handlers[h].phase in {Relaying, Closed}
    && y.handlers[h].At(side).seat.Ready? && y.handlers[h].At(side).seat.conn < |y.conns|
    && y.handlers[h].At(Other(side)).seat.Ready? && y.handlers[h].At(Other(side)).seat.conn < |y.conns|
  }

  predicate Enabled(y: Server, a: Action) {
    !y.panicked &&
    match a
    case Connect(identity) => |identity| == IDENTITY_SIZE
    case Greet(v, _) => v < |y.visitors| && y.visitors[v].phase == Greeting
    case Request(v, _) => v < |y.visitors| && y.visitors[v].phase == Serving
    case Create(v, key1, key2) =>
      && v < |y.visitors| && y.visitors[v].phase.Requesting?
      && key1 != key2 && FreshKey(y.handlers, key1) && FreshKey(y.handlers, key2)
    case Accept(v, _) => v < |y.visitors| && y.visitors[v].phase == Serving
    case Depart(v) => v < |y.visitors| && y.visitors[v].phase == Serving
    case Present(_) => true
    case Attach(c) =>
      && c < |y.conns| && y.conns[c].place.Offered? && y.conns[c].place.handler < |y.handlers|
      && y.handlers[y.conns[c].place.handler].At(y.conns[c].place.side).seat.Vacant?
    case Refuse(c) => c < |y.conns| && y.conns[c].place.Offered?
    case Respond(h, side, _) => h < |y.handlers| && y.handlers[h].At(side).seat.Joined?
    case TimeOut(h, side) => h < |y.handlers| && y.handlers[h].At(side).seat.Vacant?
    case Gather(h) =>
      && h < |y.handlers| && y.handlers[h].phase == Gathering
      && (y.handlers[h].first.seat.Ready? || y.handlers[h].first.seat.Broken?)
      && (y.handlers[h].second.seat.Ready? || y.handlers[h].second.seat.Broken?)
    case Begin(h) => h < |y.handlers| && y.handlers[h].phase == Awaiting && y.handlers[h].accepts != []
    case Pull(h, side, chunk) =>
      Started(y, h, side) && y.handlers[h].At(side).loop == Reading && |chunk| <= SESSION_BUF_SIZE
    case Push(h, side, n, ok) =>
      && Started(y, h, side) && y.handlers[h].At(side).loop.Writing?
      && n <= |y.handlers[h].At(side).loop.chunk| && (ok ==> n == |y.handlers[h].At(side).loop.chunk|)
    case Check(h, side) => Started(y, h, side) && y.handlers[h].At(side).loop == Checking
    case Fault(h, side, chunk) =>
      Started(y, h, side) && y.handlers[h].At(side).loop == Reading && |chunk| <= SESSION_BUF_SIZE
    case Finish(h) =>
      h < |y.handlers| && y.handlers[h].phase == Relaying
      && (y.handlers[h].first.loop == Stopped || y.handlers[h].second.loop == Stopped)
  }

  // ---- clients ----

  function Visit(y: Server, v: nat, p: VisitorPhase): Server
    requires v < |y.visitors|
  {
    y.(visitors := y.visitors[v := y.visitors[v].(phase := p)])
  }

  function ApplyConnect(y: Server, identity: Identity): Server {
    if identity in y.clients then y
    else y.(clients := y.clients[identity := |y.visitors|], visitors := y.visitors + [Visitor(identity, Greeting)])
  }

  function ApplyRequest(y: Server, v: nat, target: Identity): Server
    requires v < |y.visitors|
  {
    if target in y.clients then Visit(y, v, Requesting(target, y.clients[target])) else y
  }

  function ApplyDepart(y: Server, v: nat): Server
    requires v < |y.visitors|
  {
    if y.visitors[v].identity !in y.clients then y.(panicked := true)
    else Visit(y.(clients := y.clients - {y.visitors[v].identity}), v, Gone)
  }

  // ---- sessions ----

  function NewEnd(k: Key): End {
    End(k, Vacant, Reading, [])
  }

  function ApplyCreate(y: Server, v: nat, key1: Key, key2: Key): Server
    requires v < |y.visitors| && y.visitors[v].phase.Requesting?
  {
    var me, ask := y.visitors[v].identity, y.visitors[v].phase;
    var (reg, e) := OpenSession(y.reg, me, ask.target, key1, key2, |y.handlers|);
    var z := Visit(y, v, Serving);
    if e != NoError then z
    else
      var first, second := NewEnd(key1), NewEnd(key2);
      var h := Handler(Identifier(me, ask.target), me, ask.target, v, ask.peer, [], Gathering, false, first, second);
      z.(reg := reg, handlers := y.handlers + [h])
  }

  /** Closing the accept channel of a session, as its handler sees it. */
  function Signal(handlers: seq<Handler>, h: nat, who: Identity): seq<Handler> {
    if h < |handlers| then handlers[h := handlers[h].(accepts := handlers[h].accepts + [who])] else handlers
  }

  function ApplyAccept(y: Server, v: nat, initiator: Identity): Server
    requires v < |y.visitors|
  {
    var me := y.visitors[v].identity;
    var (reg, e) := AcceptSession(y.reg, initiator, me);
    if e != NoError then y
    else y.(reg := reg, handlers := Signal(y.handlers, y.reg.sessions[Identifier(initiator, me)].handler, me))
  }

  function ApplyFinish(y: Server, h: nat): Server
    requires h < |y.handlers|
  {
    var reg := DeleteSession(y.reg, y.handlers[h].id);
    if reg.None? then y.(panicked := true)
    else y.(reg := reg.value, handlers := y.handlers[h := y.handlers[h].(phase := Closed)])
  }

  // ---- connections ----

  function ApplyPresent(y: Server, key: Key): Server {
    var place := if key in y.reg.keys then Offered(y.reg.keys[key].handler, y.reg.keys[key].side) else Away;
    y.(conns := y.conns + [Conn(key, place, [], [])])
  }

  function Settle(handlers: seq<Handler>, h: nat, side: Side, end: End): seq<Handler>
    requires h < |handlers|
  {
    handlers[h := handlers[h].With(side, end)]
  }

  function ApplyAttach(y: Server, c: nat): Server
    requires Enabled(y, Attach(c))
  {
    var p := y.conns[c].place;
    y.(conns := y.conns[c := y.conns[c].(place := Seated(p.handler, p.side))],
       handlers := Settle(y.handlers, p.handler, p.side, y.handlers[p.handler].At(p.side).(seat := Joined(c))))
  }

  function Reseat(y: Server, h: nat, side: Side, seat: Seat): Server
    requires h < |y.handlers|
  {
    y.(handlers := Settle(y.handlers, h, side, y.handlers[h].At(side).(seat := seat)))
  }

  /** The seat after the response to its connection was written or not. */
  function Answered(s: Seat, ok: bool): Seat
    requires s.Joined?
  {
    if ok then Ready(s.conn) else Broken(Some(s.conn))
  }

  function MoveOn(y: Server, h: nat, p: HandlerPhase): Server
    requires h < |y.handlers|
  {
    y.(handlers := y.handlers[h := y.handlers[h].(phase := p)])
  }

  /** Where both sides being settled leads. */
  function Gathered(x: Handler): HandlerPhase {
    if x.first.seat.Ready? && x.second.seat.Ready? then Awaiting else Failed
  }

  // ---- the relays of a session ----

  function ApplyPull(y: Server, h: nat, side: Side, chunk: seq<byte>): Server
    requires Started(y, h, side)
  {
    var end := y.handlers[h].At(side);
    var c := end.seat.conn;
    y.(conns := y.conns[c := y.conns[c].(got := y.conns[c].got + chunk)],
       handlers := Settle(y.handlers, h, side, end.(loop := Writing(chunk))))
  }

  /** A read that fails ends the relay, and what came with it is dropped. */
  function ApplyFault(y: Server, h: nat, side: Side, chunk: seq<byte>): Server
    requires Started(y, h, side)
  {
    var end := y.handlers[h].At(side);
    var c := end.seat.conn;
    y.(conns := y.conns[c := y.conns[c].(got := y.conns[c].got + chunk)],
       handlers := Settle(y.handlers, h, side, end.(loop := Stopped, moved := end.moved + [Piece(chunk, 0)])))
  }

  function Mark(handlers: seq<Handler>, h: nat, err: bool): seq<Handler>
    requires h < |handlers|
  {
    handlers[h := handlers[h].(err := err)]
  }

  /** A write, whose outcome goes into the error variable of the session. */
  function ApplyPush(y: Server, h: nat, side: Side, n: nat, ok: bool): Server
    requires Enabled(y, Push(h, side, n, ok))
  {
    var end := y.handlers[h].At(side);
    var c := y.handlers[h].At(Other(side)).seat.conn;
    var moved := end.moved + [Piece(end.loop.chunk, n)];
    y.(conns := y.conns[c := y.conns[c].(sent := y.conns[c].sent + end.loop.chunk[..n])],
       handlers := Mark(Settle(y.handlers, h, side, end.(loop := Checking, moved := moved)), h, !ok))
  }

  function ApplyCheck(y: Server, h: nat, side: Side): Server
    requires h < |y.handlers|
  {
    var x := y.handlers[h];
    y.(handlers := Settle(y.handlers, h, side, x.At(side).(loop := if x.err then Stopped else Reading)))
  }

  function Apply(y: Server, a: Action): Server
    requires Enabled(y, a)
  {
    match a
    case Connect(identity) => ApplyConnect(y, identity)
    case Greet(v, ok) => Visit(y, v, if ok then Serving else Lost)
    case Request(v, target) => ApplyRequest(y, v, target)
    case Create(v, key1, key2) => ApplyCreate(y, v, key1, key2)
    case Accept(v, initiator) => ApplyAccept(y, v, initiator)
    case Depart(v) => ApplyDepart(y, v)
    case Present(key) => ApplyPresent(y, key)
    case Attach(c) => ApplyAttach(y, c)
    case Refuse(c) => y.(conns := y.conns[c := y.conns[c].(place := Away)])
    case Respond(h, side, ok) => Reseat(y, h, side, Answered(y.handlers[h].At(side).seat, ok))
    case TimeOut(h, side) => Reseat(y, h, side, Broken(None))
    case Gather(h) => MoveOn(y, h, Gathered(y.handlers[h]))
    case Begin(h) => MoveOn(y, h, Relaying)
    case Pull(h, side, chunk) => ApplyPull(y, h, side, chunk)
    case Push(h, side, n, ok) => ApplyPush(y, h, side, n, ok)
    case Check(h, side) => ApplyCheck(y, h, side)
    case Fault(h, side, chunk) => ApplyFault(y, h, side, chunk)
    case Finish(h) => ApplyFinish(y, h)
  }

  ghost predicate Step(y: Server, a: Action, z: Server) {
    Enabled(y, a) && z == Apply(y, a)
  }

  /** `y` is reached from an empty server by the actions in turn. */
  ghost predicate Reaches(acts: seq<Action>, y: Server) {
    Runs.Reaches(START, (x, a, z) => Step(x, a, z), acts, y)
  }
}
