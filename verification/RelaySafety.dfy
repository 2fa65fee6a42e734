/** What holds in every state that the relay server can reach. */
module RelaySafety {
  import opened Blocks
  import opened RelayFlow
  import opened RelayTables
  import opened Relay
  import Runs

  // ---- clients ----

  /** The client table holds exactly the visitors that have not left, each under its own identity. */
  ghost predicate VisitorsOk(clients: map<Identity, nat>, visitors: seq<Visitor>) {
    && (forall id :: id in clients ==>
          |id| == IDENTITY_SIZE && clients[id] < |visitors| && visitors[clients[id]].identity == id)
    && (forall v :: 0 <= v < |visitors| && visitors[v].phase != Gone ==>
          visitors[v].identity in clients && clients[visitors[v].identity] == v)
    && (forall v :: 0 <= v < |visitors| ==> |visitors[v].identity| == IDENTITY_SIZE)
    && (forall v :: 0 <= v < |visitors| && visitors[v].phase.Requesting? ==> AskOk(visitors, visitors[v].phase))
  }

  ghost predicate AskOk(visitors: seq<Visitor>, p: VisitorPhase)
    requires p.Requesting?
  {
    p.peer < |visitors| && visitors[p.peer].identity == p.target && |p.target| == IDENTITY_SIZE
  }

  // ---- sessions and their handlers ----

  ghost predicate Matches(s: SessionHandle, x: Handler) {
    && s.initiator == x.initiator && s.target == x.target && s.key1 == x.first.key && s.key2 == x.second.key
    && s.accepted == (x.accepts != [])
  }

  /** Every handler that has not deleted its session is the handler of the session under its identifier, and the other
      way round. */
  ghost predicate Attended(reg: Registry, handlers: seq<Handler>) {
    && (forall id :: id in reg.sessions ==> SessionAttended(reg.sessions[id], id, handlers))
    && (forall h :: 0 <= h < |handlers| && handlers[h].phase != Closed ==>
          handlers[h].id in reg.sessions && reg.sessions[handlers[h].id].handler == h)
  }

  ghost predicate SessionAttended(s: SessionHandle, id: string, handlers: seq<Handler>) {
    && s.handler < |handlers| && handlers[s.handler].phase != Closed
    && handlers[s.handler].id == id && Matches(s, handlers[s.handler])
  }

  /** No key was ever given out twice. */
  ghost predicate KeysOnce(handlers: seq<Handler>) {
    && (forall h :: 0 <= h < |handlers| ==> handlers[h].first.key != handlers[h].second.key)
    && (forall h, i, s, t :: 0 <= h < i < |handlers| ==> handlers[h].At(s).key != handlers[i].At(t).key)
  }

  predicate Untouched(end: End) {
    end.loop == Reading && end.moved == []
  }

  /** A handler on its own. */
  ghost predicate HandlerOk(x: Handler) {
    && (x.accepts == [] || x.accepts == [x.target])
    && (x.phase in {Relaying, Closed} ==> x.accepts == [x.target])
    && (x.phase in {Awaiting, Relaying, Closed} ==> x.first.seat.Ready? && x.second.seat.Ready?)
    && (x.phase !in {Relaying, Closed} ==> Untouched(x.first) && Untouched(x.second))
  }

  /** The two keys were told to clients with the right identities. */
  ghost predicate Told(visitors: seq<Visitor>, x: Handler) {
    && x.host < |visitors| && visitors[x.host].identity == x.initiator
    && x.guest < |visitors| && visitors[x.guest].identity == x.target
  }

  // ---- connections ----

  /** The connection that a seat has, if any. */
  function Holder(s: Seat): Option<nat> {
    match s
    case Vacant => None
    case Joined(c) => Some(c)
    case Ready(c) => Some(c)
    case Broken(had) => had
  }

  ghost predicate SeatOk(handlers: seq<Handler>, conns: seq<Conn>, h: nat, side: Side)
    requires h < |handlers|
  {
    var c := Holder(handlers[h].At(side).seat);
    c.Some? ==> c.value < |conns| && conns[c.value].place == Seated(h, side)
  }

  ghost predicate ConnOk(handlers: seq<Handler>, c: nat, x: Conn) {
    match x.place
    case Away => x.got == x.sent == []
    case Offered(h, side) => h < |handlers| && handlers[h].At(side).key == x.key && x.got == x.sent == []
    case Seated(h, side) =>
      && h < |handlers| && handlers[h].At(side).key == x.key && Holder(handlers[h].At(side).seat) == Some(c)
      && (handlers[h].phase !in {Relaying, Closed} ==> x.got == x.sent == [])
  }

  ghost predicate SeatsOk(handlers: seq<Handler>, conns: seq<Conn>) {
    && (forall h, side :: 0 <= h < |handlers| ==> SeatOk(handlers, conns, h, side))
    && (forall c :: 0 <= c < |conns| ==> ConnOk(handlers, c, conns[c]))
  }

  /** What was read and is not yet written. */
  function Pending(l: Loop): seq<byte> {
    if l.Writing? then l.chunk else []
  }

  /** What was read from a side and written to the other one is what its relay has moved, with what is pending. */
  ghost predicate Moves(end: End, got: seq<byte>, sent: seq<byte>) {
    Possible(end.moved) && sent == Taken(end.moved) && got == Chunks(end.moved) + Pending(end.loop)
  }

  ghost predicate Flows(x: Handler, conns: seq<Conn>, side: Side) {
    var own, other := x.At(side).seat, x.At(Other(side)).seat;
    own.Ready? && other.Ready? && own.conn < |conns| && other.conn < |conns| ==>
      Moves(x.At(side), conns[own.conn].got, conns[other.conn].sent)
  }

  ghost predicate AllFlow(handlers: seq<Handler>, conns: seq<Conn>) {
    forall h, side :: 0 <= h < |handlers| ==> Flows(handlers[h], conns, side)
  }

  ghost predicate HandlersOk(handlers: seq<Handler>) {
    forall h :: 0 <= h < |handlers| ==> HandlerOk(handlers[h])
  }

  ghost predicate AllTold(visitors: seq<Visitor>, handlers: seq<Handler>) {
    forall h :: 0 <= h < |handlers| ==> Told(visitors, handlers[h])
  }

  ghost predicate SessionPart(reg: Registry, handlers: seq<Handler>) {
    Consistent(reg) && Attended(reg, handlers)
  }

  ghost predicate HandlerPart(visitors: seq<Visitor>, handlers: seq<Handler>) {
    KeysOnce(handlers) && HandlersOk(handlers) && AllTold(visitors, handlers)
  }

  ghost predicate ConnPart(handlers: seq<Handler>, conns: seq<Conn>) {
    SeatsOk(handlers, conns) && AllFlow(handlers, conns)
  }

  ghost predicate Inv(y: Server) {
    && !y.panicked
    && VisitorsOk(y.clients, y.visitors)
    && SessionPart(y.reg, y.handlers)
    && HandlerPart(y.visitors, y.handlers)
    && ConnPart(y.handlers, y.conns)
  }

  // ---- clients: every step keeps the table ----

  lemma VisitKeeps(clients: map<Identity, nat>, visitors: seq<Visitor>, v: nat, p: VisitorPhase)
    requires VisitorsOk(clients, visitors) && v < |visitors| && visitors[v].phase != Gone && p != Gone
    requires p.Requesting? ==> AskOk(visitors, p)
    ensures VisitorsOk(clients, visitors[v := visitors[v].(phase := p)])
  {
  }

  lemma ConnectKeeps(clients: map<Identity, nat>, visitors: seq<Visitor>, id: Identity)
    requires VisitorsOk(clients, visitors) && |id| == IDENTITY_SIZE && id !in clients
    ensures VisitorsOk(clients[id := |visitors|], visitors + [Visitor(id, Greeting)])
  {
  }

  lemma DepartKeeps(clients: map<Identity, nat>, visitors: seq<Visitor>, v: nat)
    requires VisitorsOk(clients, visitors) && v < |visitors| && visitors[v].phase != Gone
    ensures visitors[v].identity in clients
    ensures VisitorsOk(clients - {visitors[v].identity}, visitors[v := visitors[v].(phase := Gone)])
  {
  }

  lemma StillTold(visitors: seq<Visitor>, to: seq<Visitor>, handlers: seq<Handler>)
    requires HandlerPart(visitors, handlers) && |visitors| <= |to|
    requires forall v :: 0 <= v < |visitors| ==> to[v].identity == visitors[v].identity
    ensures HandlerPart(to, handlers)
  {
  }

  predicate ClientStep(a: Action) {
    a.Connect? || a.Greet? || a.Request? || a.Depart?
  }

  lemma ClientStepKeeps(y: Server, a: Action)
    requires Inv(y) && Enabled(y, a) && ClientStep(a)
    ensures Inv(Apply(y, a))
  {
    match a {
      case Connect(id) => if id !in y.clients { ConnectInv(y, id); }
      case Greet(v, ok) => VisitInv(y, v, if ok then Serving else Lost);
      case Request(v, target) => if target in y.clients { VisitInv(y, v, Requesting(target, y.clients[target])); }
      case Depart(v) => DepartInv(y, v);
    }
  }

  lemma ConnectInv(y: Server, id: Identity)
    requires Inv(y) && |id| == IDENTITY_SIZE && id !in y.clients
    ensures Inv(ApplyConnect(y, id))
  {
    ConnectKeeps(y.clients, y.visitors, id);
    StillTold(y.visitors, ApplyConnect(y, id).visitors, y.handlers);
  }

  lemma DepartInv(y: Server, v: nat)
    requires Inv(y) && v < |y.visitors| && y.visitors[v].phase != Gone
    ensures Inv(ApplyDepart(y, v))
  {
    DepartKeeps(y.clients, y.visitors, v);
    StillTold(y.visitors, ApplyDepart(y, v).visitors, y.handlers);
  }

  // ---- changing one handler ----

  predicate Active(p: HandlerPhase) {
    p in {Relaying, Closed}
  }

  /** What no step changes in a handler. */
  ghost predicate SameFacts(x: Handler, x': Handler) {
    && x'.id == x.id && x'.initiator == x.initiator && x'.target == x.target && x'.host == x.host && x'.guest == x.guest
    && x'.first.key == x.first.key && x'.second.key == x.second.key
  }

  lemma FactsKeep(visitors: seq<Visitor>, handlers: seq<Handler>, h: nat, x: Handler)
    requires HandlerPart(visitors, handlers)
    requires h < |handlers| && SameFacts(handlers[h], x) && HandlerOk(x)
    ensures HandlerPart(visitors, handlers[h := x])
  {
    var to := handlers[h := x];
    forall i | 0 <= i < |to|
      ensures Told(visitors, to[i])
    {
      assert Told(visitors, handlers[i]);
    }
    forall i, j, s: Side, t: Side | 0 <= i < j < |to|
      ensures to[i].At(s).key != to[j].At(t).key
    {
      assert handlers[i].At(s).key != handlers[j].At(t).key;
    }
  }

  lemma AttendedKeep(reg: Registry, handlers: seq<Handler>, h: nat, x: Handler)
    requires Attended(reg, handlers) && h < |handlers| && SameFacts(handlers[h], x) && x.accepts == handlers[h].accepts
    requires x.phase == Closed <==> handlers[h].phase == Closed
    ensures Attended(reg, handlers[h := x])
  {
  }

  /** Both ends stay as they are. */
  lemma SeatsKeep(handlers: seq<Handler>, conns: seq<Conn>, h: nat, x: Handler)
    requires ConnPart(handlers, conns) && h < |handlers|
    requires x.first == handlers[h].first && x.second == handlers[h].second
    requires Active(handlers[h].phase) ==> Active(x.phase)
    ensures ConnPart(handlers[h := x], conns)
  {
    var to := handlers[h := x];
    forall i, side: Side | 0 <= i < |to|
      ensures SeatOk(to, conns, i, side) && Flows(to[i], conns, side)
    {
      assert SeatOk(handlers, conns, i, side) && Flows(handlers[i], conns, side);
    }
    forall c | 0 <= c < |conns|
      ensures ConnOk(to, c, conns[c])
    {
      assert ConnOk(handlers, c, conns[c]);
    }
  }

  // ---- sessions ----

  /** A key in the key table is the key of a handler. */
  lemma FreshIsFree(reg: Registry, handlers: seq<Handler>, k: Key)
    requires SessionPart(reg, handlers)
    ensures k in reg.keys ==> !FreshKey(handlers, k)
  {
  }

  lemma AddHandler(visitors: seq<Visitor>, handlers: seq<Handler>, x: Handler)
    requires HandlerPart(visitors, handlers)
    requires HandlerOk(x) && Told(visitors, x) && x.first.key != x.second.key
    requires FreshKey(handlers, x.first.key) && FreshKey(handlers, x.second.key)
    ensures HandlerPart(visitors, handlers + [x])
  {
  }

  lemma AddSeats(handlers: seq<Handler>, conns: seq<Conn>, x: Handler)
    requires ConnPart(handlers, conns) && x.first.seat.Vacant? && x.second.seat.Vacant?
    ensures ConnPart(handlers + [x], conns)
  {
    var to := handlers + [x];
    forall i, side: Side | 0 <= i < |to|
      ensures SeatOk(to, conns, i, side) && Flows(to[i], conns, side)
    {
      if i < |handlers| {
        assert SeatOk(handlers, conns, i, side) && Flows(handlers[i], conns, side);
      }
    }
    forall c | 0 <= c < |conns|
      ensures ConnOk(to, c, conns[c])
    {
      assert ConnOk(handlers, c, conns[c]);
    }
  }

  lemma AddAttended(reg: Registry, handlers: seq<Handler>, x: Handler)
    requires Attended(reg, handlers) && x.id !in reg.sessions && x.id == Identifier(x.initiator, x.target)
    requires x.accepts == [] && x.phase == Gathering
    ensures Attended(OpenSession(reg, x.initiator, x.target, x.first.key, x.second.key, |handlers|).0, handlers + [x])
  {
  }

  lemma AddSession(reg: Registry, handlers: seq<Handler>, x: Handler)
    requires SessionPart(reg, handlers) && x.id !in reg.sessions && x.id == Identifier(x.initiator, x.target)
    requires |x.initiator| == |x.target| == IDENTITY_SIZE && x.accepts == [] && x.phase == Gathering
    requires x.first.key != x.second.key && FreshKey(handlers, x.first.key) && FreshKey(handlers, x.second.key)
    ensures var reg' := OpenSession(reg, x.initiator, x.target, x.first.key, x.second.key, |handlers|).0;
            SessionPart(reg', handlers + [x])
  {
    FreshIsFree(reg, handlers, x.first.key);
    FreshIsFree(reg, handlers, x.second.key);
    OpenKeeps(reg, x.initiator, x.target, x.first.key, x.second.key, |handlers|);
    AddAttended(reg, handlers, x);
  }

  lemma VisitInv(y: Server, v: nat, p: VisitorPhase)
    requires Inv(y) && v < |y.visitors| && y.visitors[v].phase != Gone && p != Gone
    requires p.Requesting? ==> AskOk(y.visitors, p)
    ensures Inv(Visit(y, v, p))
  {
    VisitKeeps(y.clients, y.visitors, v, p);
    StillTold(y.visitors, Visit(y, v, p).visitors, y.handlers);
  }

  lemma HandlerInv(y: Server, x: Handler)
    requires Inv(y) && x.id !in y.reg.sessions && x.id == Identifier(x.initiator, x.target)
    requires |x.initiator| == |x.target| == IDENTITY_SIZE && Told(y.visitors, x)
    requires x.accepts == [] && x.phase == Gathering && x.first == NewEnd(x.first.key)
    requires x.second == NewEnd(x.second.key)
    requires x.first.key != x.second.key && FreshKey(y.handlers, x.first.key) && FreshKey(y.handlers, x.second.key)
    ensures Inv(y.(reg := OpenSession(y.reg, x.initiator, x.target, x.first.key, x.second.key, |y.handlers|).0,
                   handlers := y.handlers + [x]))
  {
    AddSession(y.reg, y.handlers, x);
    AddHandler(y.visitors, y.handlers, x);
    AddSeats(y.handlers, y.conns, x);
  }

  lemma CreateKeeps(y: Server, v: nat, key1: Key, key2: Key)
    requires Inv(y) && Enabled(y, Create(v, key1, key2))
    ensures Inv(ApplyCreate(y, v, key1, key2))
  {
    var me, ask := y.visitors[v].identity, y.visitors[v].phase;
    AskIsOk(y.clients, y.visitors, v);
    VisitInv(y, v, Serving);
    if Identifier(me, ask.target) !in y.reg.sessions {
      HandlerInv(Visit(y, v, Serving), Handler(Identifier(me, ask.target), me, ask.target, v, ask.peer, [], Gathering,
                                               false, NewEnd(key1), NewEnd(key2)));
    }
  }

  lemma AskIsOk(clients: map<Identity, nat>, visitors: seq<Visitor>, v: nat)
    requires VisitorsOk(clients, visitors) && v < |visitors| && visitors[v].phase.Requesting?
    ensures AskOk(visitors, visitors[v].phase) && |visitors[v].identity| == IDENTITY_SIZE
  {
  }

  lemma SignalAttended(reg: Registry, handlers: seq<Handler>, id: string)
    requires Attended(reg, handlers) && id in reg.sessions && !reg.sessions[id].accepted
    ensures var h := reg.sessions[id].handler;
            && h < |handlers| && handlers[h].target == reg.sessions[id].target && handlers[h].accepts == []
            && Attended(reg.(sessions := reg.sessions[id := reg.sessions[id].(accepted := true)]),
                        Signal(handlers, h, reg.sessions[id].target))
  {
  }

  lemma SignalKeeps(reg: Registry, handlers: seq<Handler>, initiator: Identity, me: Identity)
    requires SessionPart(reg, handlers) && |me| == IDENTITY_SIZE && AcceptSession(reg, initiator, me).1 == NoError
    ensures var h := reg.sessions[Identifier(initiator, me)].handler;
            && h < |handlers| && handlers[h].target == me && handlers[h].accepts == []
            && SessionPart(AcceptSession(reg, initiator, me).0, Signal(handlers, h, me))
  {
    var id := Identifier(initiator, me);
    AcceptKeeps(reg, initiator, me);
    NamedIff(id, reg.sessions[id], initiator, me);
    SignalAttended(reg, handlers, id);
  }

  lemma AcceptStepKeeps(y: Server, v: nat, initiator: Identity)
    requires Inv(y) && Enabled(y, Accept(v, initiator))
    ensures Inv(ApplyAccept(y, v, initiator))
  {
    var me := y.visitors[v].identity;
    if AcceptSession(y.reg, initiator, me).1 == NoError {
      var h := y.reg.sessions[Identifier(initiator, me)].handler;
      SignalKeeps(y.reg, y.handlers, initiator, me);
      AcceptedOk(y.visitors, y.handlers, h, me);
      SeatsKeep(y.handlers, y.conns, h, y.handlers[h].(accepts := y.handlers[h].accepts + [me]));
    }
  }

  lemma AcceptedOk(visitors: seq<Visitor>, handlers: seq<Handler>, h: nat, who: Identity)
    requires HandlerPart(visitors, handlers) && h < |handlers| && handlers[h].target == who && handlers[h].accepts == []
    ensures HandlerPart(visitors, Signal(handlers, h, who))
  {
    assert HandlerOk(handlers[h]);
    FactsKeep(visitors, handlers, h, handlers[h].(accepts := handlers[h].accepts + [who]));
  }

  lemma CloseAttended(reg: Registry, handlers: seq<Handler>, h: nat)
    requires Attended(reg, handlers) && h < |handlers| && handlers[h].phase != Closed
    ensures DeleteSession(reg, handlers[h].id).Some?
    ensures Attended(DeleteSession(reg, handlers[h].id).value, handlers[h := handlers[h].(phase := Closed)])
  {
  }

  lemma CloseKeeps(reg: Registry, handlers: seq<Handler>, h: nat)
    requires SessionPart(reg, handlers) && h < |handlers| && handlers[h].phase != Closed
    ensures DeleteSession(reg, handlers[h].id).Some?
    ensures SessionPart(DeleteSession(reg, handlers[h].id).value, handlers[h := handlers[h].(phase := Closed)])
  {
    CloseAttended(reg, handlers, h);
    DeleteKeeps(reg, handlers[h].id);
  }

  lemma FinishKeeps(y: Server, h: nat)
    requires Inv(y) && h < |y.handlers| && y.handlers[h].phase == Relaying
    ensures Inv(ApplyFinish(y, h))
  {
    CloseKeeps(y.reg, y.handlers, h);
    PhaseKeeps(y.visitors, y.handlers, y.conns, h, Closed);
  }

  /** A handler moves on to another phase. */
  lemma PhaseKeeps(visitors: seq<Visitor>, handlers: seq<Handler>, conns: seq<Conn>, h: nat, p: HandlerPhase)
    requires HandlerPart(visitors, handlers) && ConnPart(handlers, conns) && h < |handlers|
    requires HandlerOk(handlers[h]) ==> HandlerOk(handlers[h].(phase := p))
    requires Active(handlers[h].phase) ==> Active(p)
    ensures HandlerPart(visitors, handlers[h := handlers[h].(phase := p)])
    ensures ConnPart(handlers[h := handlers[h].(phase := p)], conns)
  {
    FactsKeep(visitors, handlers, h, handlers[h].(phase := p));
    SeatsKeep(handlers, conns, h, handlers[h].(phase := p));
  }

  // ---- connections ----

  lemma OfferOk(reg: Registry, handlers: seq<Handler>, key: Key, c: nat)
    requires SessionPart(reg, handlers) && key in reg.keys
    ensures ConnOk(handlers, c, Conn(key, Offered(reg.keys[key].handler, reg.keys[key].side), [], []))
  {
  }

  lemma PresentKeeps(y: Server, key: Key)
    requires Inv(y)
    ensures Inv(ApplyPresent(y, key))
  {
    if key in y.reg.keys {
      OfferOk(y.reg, y.handlers, key, |y.conns|);
    }
    MoreConns(y.handlers, y.conns, ApplyPresent(y, key).conns[|y.conns|]);
  }

  lemma MoreConns(handlers: seq<Handler>, conns: seq<Conn>, x: Conn)
    requires ConnPart(handlers, conns) && ConnOk(handlers, |conns|, x) && !x.place.Seated?
    ensures ConnPart(handlers, conns + [x])
  {
    var to := conns + [x];
    forall i, side: Side | 0 <= i < |handlers|
      ensures SeatOk(handlers, to, i, side) && Flows(handlers[i], to, side)
    {
      assert SeatOk(handlers, conns, i, side) && SeatOk(handlers, conns, i, Other(side));
      assert Flows(handlers[i], conns, side);
    }
    forall c | 0 <= c < |to|
      ensures ConnOk(handlers, c, to[c])
    {
      assert c < |conns| ==> ConnOk(handlers, c, conns[c]);
    }
  }

  /** Two seats never have the same connection. */
  lemma SeatsApart(handlers: seq<Handler>, conns: seq<Conn>, h: nat, side: Side, i: nat, other: Side)
    requires SeatsOk(handlers, conns) && h < |handlers| && i < |handlers| && (h, side) != (i, other)
    requires Holder(handlers[h].At(side).seat).Some?
    ensures Holder(handlers[h].At(side).seat) != Holder(handlers[i].At(other).seat)
  {
    assert SeatOk(handlers, conns, h, side) && SeatOk(handlers, conns, i, other);
  }

  lemma AttachSeats(handlers: seq<Handler>, conns: seq<Conn>, c: nat)
    requires ConnPart(handlers, conns) && c < |conns| && conns[c].place.Offered? && conns[c].place.handler < |handlers|
    requires handlers[conns[c].place.handler].At(conns[c].place.side).seat.Vacant?
    ensures var h, side := conns[c].place.handler, conns[c].place.side;
            ConnPart(Settle(handlers, h, side, handlers[h].At(side).(seat := Joined(c))),
                     conns[c := conns[c].(place := Seated(h, side))])
  {
    var h, side := conns[c].place.handler, conns[c].place.side;
    var to := Settle(handlers, h, side, handlers[h].At(side).(seat := Joined(c)));
    var conns' := conns[c := conns[c].(place := Seated(h, side))];
    assert ConnOk(handlers, c, conns[c]);
    forall i, s: Side | 0 <= i < |to|
      ensures SeatOk(to, conns', i, s) && Flows(to[i], conns', s)
    {
      assert SeatOk(handlers, conns, i, s) && Flows(handlers[i], conns, s);
    }
    forall d | 0 <= d < |conns'|
      ensures ConnOk(to, d, conns'[d])
    {
      assert ConnOk(handlers, d, conns[d]);
    }
  }

  lemma EndKeeps(visitors: seq<Visitor>, handlers: seq<Handler>, h: nat, side: Side, end: End)
    requires HandlerPart(visitors, handlers) && h < |handlers| && end.key == handlers[h].At(side).key
    requires HandlerOk(handlers[h]) ==> HandlerOk(handlers[h].With(side, end))
    ensures HandlerPart(visitors, Settle(handlers, h, side, end))
  {
    FactsKeep(visitors, handlers, h, handlers[h].With(side, end));
  }

  lemma EndAttended(reg: Registry, handlers: seq<Handler>, h: nat, side: Side, end: End)
    requires SessionPart(reg, handlers) && h < |handlers| && end.key == handlers[h].At(side).key
    ensures SessionPart(reg, Settle(handlers, h, side, end))
  {
    AttendedKeep(reg, handlers, h, handlers[h].With(side, end));
  }

  lemma AttachKeeps(y: Server, c: nat)
    requires Enabled(y, Attach(c)) && Inv(y)
    ensures Inv(ApplyAttach(y, c))
  {
    var h, side := y.conns[c].place.handler, y.conns[c].place.side;
    var end := y.handlers[h].At(side).(seat := Joined(c));
    EndKeeps(y.visitors, y.handlers, h, side, end);
    EndAttended(y.reg, y.handlers, h, side, end);
    AttachSeats(y.handlers, y.conns, c);
  }

  lemma RefuseSeats(handlers: seq<Handler>, conns: seq<Conn>, c: nat)
    requires ConnPart(handlers, conns) && c < |conns| && conns[c].place.Offered?
    ensures ConnPart(handlers, conns[c := conns[c].(place := Away)])
  {
    var to := conns[c := conns[c].(place := Away)];
    assert ConnOk(handlers, c, conns[c]);
    forall i, s: Side | 0 <= i < |handlers|
      ensures SeatOk(handlers, to, i, s) && Flows(handlers[i], to, s)
    {
      assert SeatOk(handlers, conns, i, s) && Flows(handlers[i], conns, s);
    }
    forall d | 0 <= d < |to|
      ensures ConnOk(handlers, d, to[d])
    {
      assert ConnOk(handlers, d, conns[d]);
    }
  }

  /** A seat changes hands with no one while the session is not yet relaying. */
  lemma ReseatSeats(handlers: seq<Handler>, conns: seq<Conn>, h: nat, side: Side, end: End)
    requires ConnPart(handlers, conns) && HandlersOk(handlers) && h < |handlers|
    requires !handlers[h].At(side).seat.Ready? && end == handlers[h].At(side).(seat := end.seat)
    requires Holder(end.seat) == Holder(handlers[h].At(side).seat)
    ensures ConnPart(Settle(handlers, h, side, end), conns)
  {
    var to := Settle(handlers, h, side, end);
    assert HandlerOk(handlers[h]);
    forall i, s: Side | 0 <= i < |to|
      ensures SeatOk(to, conns, i, s) && Flows(to[i], conns, s)
    {
      assert SeatOk(handlers, conns, i, s) && Flows(handlers[i], conns, s);
      if i == h {
        QuietSeat(handlers, conns, h, First);
        QuietSeat(handlers, conns, h, Second);
      }
    }
    forall d | 0 <= d < |conns|
      ensures ConnOk(to, d, conns[d])
    {
      assert ConnOk(handlers, d, conns[d]);
    }
  }

  /** Before a session relays nothing was read from or written to its connections. */
  lemma QuietSeat(handlers: seq<Handler>, conns: seq<Conn>, h: nat, side: Side)
    requires SeatsOk(handlers, conns) && h < |handlers| && !Active(handlers[h].phase)
    ensures var c := Holder(handlers[h].At(side).seat);
            c.Some? ==> c.value < |conns| && conns[c.value].got == conns[c.value].sent == []
  {
    var c := Holder(handlers[h].At(side).seat);
    assert SeatOk(handlers, conns, h, side);
    if c.Some? {
      assert ConnOk(handlers, c.value, conns[c.value]);
    }
  }

  lemma ReseatKeeps(y: Server, h: nat, side: Side, seat: Seat)
    requires Inv(y) && h < |y.handlers| && !y.handlers[h].At(side).seat.Ready?
    requires Holder(seat) == Holder(y.handlers[h].At(side).seat)
    ensures Inv(Reseat(y, h, side, seat))
  {
    var end := y.handlers[h].At(side).(seat := seat);
    EndKeeps(y.visitors, y.handlers, h, side, end);
    EndAttended(y.reg, y.handlers, h, side, end);
    ReseatSeats(y.handlers, y.conns, h, side, end);
  }

  lemma PhaseInv(y: Server, h: nat, p: HandlerPhase)
    requires Inv(y) && h < |y.handlers| && y.handlers[h].phase != Closed && p != Closed
    requires HandlerOk(y.handlers[h]) ==> HandlerOk(y.handlers[h].(phase := p))
    requires Active(y.handlers[h].phase) ==> Active(p)
    ensures Inv(MoveOn(y, h, p))
  {
    AttendedKeep(y.reg, y.handlers, h, y.handlers[h].(phase := p));
    PhaseKeeps(y.visitors, y.handlers, y.conns, h, p);
  }

  // ---- relaying ----

  /** One relay moves, with the logs of its two connections. */
  lemma MoveSeats(handlers: seq<Handler>, conns: seq<Conn>, h: nat, side: Side, end: End, got: seq<byte>,
                  sent: seq<byte>)
    requires ConnPart(handlers, conns) && h < |handlers| && Active(handlers[h].phase)
    requires handlers[h].At(side).seat.Ready? && handlers[h].At(Other(side)).seat.Ready?
    requires end.seat == handlers[h].At(side).seat && end.key == handlers[h].At(side).key && Moves(end, got, sent)
    ensures var own, other := end.seat.conn, handlers[h].At(Other(side)).seat.conn;
            && own < |conns| && other < |conns| && own != other
            && ConnPart(Settle(handlers, h, side, end),
                        conns[own := conns[own].(got := got)][other := conns[other].(sent := sent)])
  {
    var own, other := end.seat.conn, handlers[h].At(Other(side)).seat.conn;
    var to := Settle(handlers, h, side, end);
    SeatsApart(handlers, conns, h, side, h, Other(side));
    assert SeatOk(handlers, conns, h, side) && SeatOk(handlers, conns, h, Other(side));
    var conns' := conns[own := conns[own].(got := got)][other := conns[other].(sent := sent)];
    forall i, s: Side | 0 <= i < |to|
      ensures SeatOk(to, conns', i, s) && Flows(to[i], conns', s)
    {
      assert SeatOk(handlers, conns, i, s) && SeatOk(handlers, conns, i, Other(s)) && Flows(handlers[i], conns, s);
      if (i, s) != (h, side) && Holder(handlers[i].At(s).seat).Some? {
        SeatsApart(handlers, conns, i, s, h, side);
      }
    }
    forall d | 0 <= d < |conns'|
      ensures ConnOk(to, d, conns'[d])
    {
      assert ConnOk(handlers, d, conns[d]);
    }
  }

  /** The two connections of a relay. */
  lemma RelaySeats(handlers: seq<Handler>, conns: seq<Conn>, h: nat, side: Side)
    requires ConnPart(handlers, conns) && h < |handlers|
    requires handlers[h].At(side).seat.Ready? && handlers[h].At(Other(side)).seat.Ready?
    ensures var own, other := handlers[h].At(side).seat.conn, handlers[h].At(Other(side)).seat.conn;
            && own < |conns| && other < |conns| && own != other
            && Moves(handlers[h].At(side), conns[own].got, conns[other].sent)
  {
    assert SeatOk(handlers, conns, h, side) && SeatOk(handlers, conns, h, Other(side));
    assert Flows(handlers[h], conns, side);
  }

  lemma ReadSeats(handlers: seq<Handler>, conns: seq<Conn>, h: nat, side: Side, chunk: seq<byte>, end: End)
    requires ConnPart(handlers, conns) && h < |handlers| && Active(handlers[h].phase)
    requires handlers[h].At(side).seat.Ready? && handlers[h].At(Other(side)).seat.Ready?
    requires var was := handlers[h].At(side);
             && was.loop == Reading
             && (|| end == was.(loop := Writing(chunk))
                 || end == was.(loop := Stopped, moved := was.moved + [Piece(chunk, 0)]))
    ensures var c := end.seat.conn;
            c < |conns| && ConnPart(Settle(handlers, h, side, end), conns[c := conns[c].(got := conns[c].got + chunk)])
  {
    RelaySeats(handlers, conns, h, side);
    var own, other := end.seat.conn, handlers[h].At(Other(side)).seat.conn;
    Snoc(handlers[h].At(side).moved, Piece(chunk, 0));
    MoveSeats(handlers, conns, h, side, end, conns[own].got + chunk, conns[other].sent);
    var got := conns[own := conns[own].(got := conns[own].got + chunk)];
    assert got[other := got[other].(sent := conns[other].sent)] == got;
  }

  lemma WriteSeats(handlers: seq<Handler>, conns: seq<Conn>, h: nat, side: Side, n: nat, end: End)
    requires ConnPart(handlers, conns) && h < |handlers| && Active(handlers[h].phase)
    requires handlers[h].At(side).seat.Ready? && handlers[h].At(Other(side)).seat.Ready?
    requires var was := handlers[h].At(side);
             && was.loop.Writing? && n <= |was.loop.chunk|
             && end == was.(loop := Checking, moved := was.moved + [Piece(was.loop.chunk, n)])
    ensures var c := handlers[h].At(Other(side)).seat.conn;
            && c < |conns|
            && ConnPart(Settle(handlers, h, side, end),
                        conns[c := conns[c].(sent := conns[c].sent + handlers[h].At(side).loop.chunk[..n])])
  {
    RelaySeats(handlers, conns, h, side);
    var own, other := end.seat.conn, handlers[h].At(Other(side)).seat.conn;
    var was := handlers[h].At(side);
    Snoc(was.moved, Piece(was.loop.chunk, n));
    MoveSeats(handlers, conns, h, side, end, conns[own].got, conns[other].sent + was.loop.chunk[..n]);
    assert conns[own := conns[own].(got := conns[own].got)] == conns;
  }

  lemma CheckSeats(handlers: seq<Handler>, conns: seq<Conn>, h: nat, side: Side, end: End)
    requires ConnPart(handlers, conns) && h < |handlers| && Active(handlers[h].phase)
    requires handlers[h].At(side).seat.Ready? && handlers[h].At(Other(side)).seat.Ready?
    requires handlers[h].At(side).loop == Checking && !end.loop.Writing?
    requires end == handlers[h].At(side).(loop := end.loop)
    ensures ConnPart(Settle(handlers, h, side, end), conns)
  {
    RelaySeats(handlers, conns, h, side);
    var own, other := end.seat.conn, handlers[h].At(Other(side)).seat.conn;
    MoveSeats(handlers, conns, h, side, end, conns[own].got, conns[other].sent);
    assert conns[own := conns[own].(got := conns[own].got)] == conns;
    assert conns[other := conns[other].(sent := conns[other].sent)] == conns;
  }

  lemma MarkInv(y: Server, h: nat, err: bool)
    requires Inv(y) && h < |y.handlers|
    ensures Inv(y.(handlers := Mark(y.handlers, h, err)))
  {
    var x := y.handlers[h].(err := err);
    assert HandlerOk(y.handlers[h]);
    AttendedKeep(y.reg, y.handlers, h, x);
    FactsKeep(y.visitors, y.handlers, h, x);
    SeatsKeep(y.handlers, y.conns, h, x);
  }

  lemma MoveInv(y: Server, h: nat, side: Side, end: End, conns: seq<Conn>)
    requires Inv(y) && h < |y.handlers| && Active(y.handlers[h].phase)
    requires end.seat == y.handlers[h].At(side).seat && end.key == y.handlers[h].At(side).key
    requires ConnPart(Settle(y.handlers, h, side, end), conns)
    ensures Inv(y.(conns := conns, handlers := Settle(y.handlers, h, side, end)))
  {
    EndKeeps(y.visitors, y.handlers, h, side, end);
    EndAttended(y.reg, y.handlers, h, side, end);
  }

  lemma PullKeeps(y: Server, h: nat, side: Side, chunk: seq<byte>)
    requires Inv(y) && Started(y, h, side) && y.handlers[h].At(side).loop == Reading
    ensures Inv(ApplyPull(y, h, side, chunk))
  {
    var end := y.handlers[h].At(side).(loop := Writing(chunk));
    ReadSeats(y.handlers, y.conns, h, side, chunk, end);
    MoveInv(y, h, side, end, ApplyPull(y, h, side, chunk).conns);
  }

  lemma FaultKeeps(y: Server, h: nat, side: Side, chunk: seq<byte>)
    requires Inv(y) && Started(y, h, side) && y.handlers[h].At(side).loop == Reading
    ensures Inv(ApplyFault(y, h, side, chunk))
  {
    var was := y.handlers[h].At(side);
    var end := was.(loop := Stopped, moved := was.moved + [Piece(chunk, 0)]);
    ReadSeats(y.handlers, y.conns, h, side, chunk, end);
    MoveInv(y, h, side, end, ApplyFault(y, h, side, chunk).conns);
  }

  lemma PushKeeps(y: Server, h: nat, side: Side, n: nat, ok: bool)
    requires Inv(y) && Enabled(y, Push(h, side, n, ok))
    ensures Inv(ApplyPush(y, h, side, n, ok))
  {
    var was, conns := y.handlers[h].At(side), ApplyPush(y, h, side, n, ok).conns;
    var end := was.(loop := Checking, moved := was.moved + [Piece(was.loop.chunk, n)]);
    WriteSeats(y.handlers, y.conns, h, side, n, end);
    MoveInv(y, h, side, end, conns);
    MarkInv(y.(conns := conns, handlers := Settle(y.handlers, h, side, end)), h, !ok);
  }

  lemma CheckKeeps(y: Server, h: nat, side: Side)
    requires Inv(y) && Started(y, h, side) && y.handlers[h].At(side).loop == Checking
    ensures Inv(ApplyCheck(y, h, side))
  {
    var end := y.handlers[h].At(side).(loop := if y.handlers[h].err then Stopped else Reading);
    CheckSeats(y.handlers, y.conns, h, side, end);
    MoveInv(y, h, side, end, y.conns);
  }

  // ---- every run ----

  lemma SessionStepKeeps(y: Server, a: Action)
    requires Inv(y) && Enabled(y, a) && !ClientStep(a) && !RelayStep(a) && !SeatStep(a) && !PhaseStep(a)
    ensures Inv(Apply(y, a))
  {
    match a {
      case Create(v, key1, key2) => CreateKeeps(y, v, key1, key2);
      case Accept(v, initiator) => AcceptStepKeeps(y, v, initiator);
      case Present(key) => PresentKeeps(y, key);
      case Attach(c) => AttachKeeps(y, c);
      case Refuse(c) => RefuseSeats(y.handlers, y.conns, c);
      case Finish(h) => FinishKeeps(y, h);
    }
  }

  predicate RelayStep(a: Action) {
    a.Pull? || a.Push? || a.Check? || a.Fault?
  }

  predicate SeatStep(a: Action) {
    a.Respond? || a.TimeOut?
  }

  predicate PhaseStep(a: Action) {
    a.Gather? || a.Begin?
  }

  lemma AnsweredKeeps(y: Server, h: nat, side: Side, ok: bool)
    requires Inv(y) && h < |y.handlers| && y.handlers[h].At(side).seat.Joined?
    ensures Inv(Reseat(y, h, side, Answered(y.handlers[h].At(side).seat, ok)))
  {
    SameHolder(y.handlers[h].At(side).seat, ok);
    ReseatKeeps(y, h, side, Answered(y.handlers[h].At(side).seat, ok));
  }

  lemma TimeOutKeeps(y: Server, h: nat, side: Side)
    requires Inv(y) && h < |y.handlers| && y.handlers[h].At(side).seat.Vacant?
    ensures Inv(Reseat(y, h, side, Broken(None)))
  {
    NoHolder(y.handlers[h].At(side).seat);
    ReseatKeeps(y, h, side, Broken(None));
  }

  lemma NoHolder(s: Seat)
    requires s.Vacant?
    ensures Holder(Broken(None)) == Holder(s)
  {
  }

  lemma SameHolder(s: Seat, ok: bool)
    requires s.Joined?
    ensures Holder(Answered(s, ok)) == Holder(s)
  {
  }

  lemma GatherOk(x: Handler)
    requires x.phase == Gathering && HandlerOk(x)
    ensures HandlerOk(x.(phase := Gathered(x)))
  {
  }

  lemma GatherKeeps(y: Server, h: nat)
    requires Inv(y) && h < |y.handlers| && y.handlers[h].phase == Gathering
    ensures Inv(MoveOn(y, h, Gathered(y.handlers[h])))
  {
    assert HandlerOk(y.handlers[h]);
    GatherOk(y.handlers[h]);
    PhaseInv(y, h, Gathered(y.handlers[h]));
  }

  lemma BeginKeeps(y: Server, h: nat)
    requires Inv(y) && h < |y.handlers| && y.handlers[h].phase == Awaiting && y.handlers[h].accepts != []
    ensures Inv(MoveOn(y, h, Relaying))
  {
    PhaseInv(y, h, Relaying);
  }

  lemma SeatStepKeeps(y: Server, a: Action)
    requires Inv(y) && Enabled(y, a) && SeatStep(a)
    ensures Inv(Apply(y, a))
  {
    match a {
      case Respond(h, side, ok) => AnsweredKeeps(y, h, side, ok);
      case TimeOut(h, side) => TimeOutKeeps(y, h, side);
    }
  }

  lemma PhaseStepKeeps(y: Server, a: Action)
    requires Inv(y) && Enabled(y, a) && PhaseStep(a)
    ensures Inv(Apply(y, a))
  {
    match a {
      case Gather(h) => GatherKeeps(y, h);
      case Begin(h) => BeginKeeps(y, h);
    }
  }

  lemma RelayStepKeeps(y: Server, a: Action)
    requires Inv(y) && Enabled(y, a) && RelayStep(a)
    ensures Inv(Apply(y, a))
  {
    match a {
      case Pull(h, side, chunk) => PullKeeps(y, h, side, chunk);
      case Push(h, side, n, ok) => PushKeeps(y, h, side, n, ok);
      case Check(h, side) => CheckKeeps(y, h, side);
      case Fault(h, side, chunk) => FaultKeeps(y, h, side, chunk);
    }
  }

  lemma StepKeeps(y: Server, a: Action)
    requires Inv(y) && Enabled(y, a)
    ensures Inv(Apply(y, a))
  {
    if ClientStep(a) {
      ClientStepKeeps(y, a);
    } else if RelayStep(a) {
      RelayStepKeeps(y, a);
    } else if SeatStep(a) {
      SeatStepKeeps(y, a);
    } else if PhaseStep(a) {
      PhaseStepKeeps(y, a);
    } else {
      SessionStepKeeps(y, a);
    }
  }

  lemma EveryRun(acts: seq<Action>, y: Server)
    requires Reaches(acts, y)
    ensures Inv(y)
  {
    var next := (x, a, z) => Step(x, a, z);
    var inv: (seq<Action>, Server) -> bool := (_, x) => Inv(x);
    forall before, x, a, z | inv(before, x) && next(x, a, z)
      ensures inv(before + [a], z)
    {
      StepKeeps(x, a);
    }
    Runs.RunInduction(START, next, inv, acts, y);
  }

  /** In every reachable state the key table is the disjoint union of the two keys of each session, each key resolving
      to its own session, whose handler has not deleted it. */
  lemma KeyTableExact(acts: seq<Action>, y: Server)
    requires Reaches(acts, y)
    ensures KeyUnion(y.reg)
    ensures forall k :: k in y.reg.keys ==> KeyOk(y.reg, k)
    ensures forall id :: id in y.reg.sessions ==> SessionAttended(y.reg.sessions[id], id, y.handlers)
  {
    EveryRun(acts, y);
    KeysAreDisjointUnion(y.reg);
  }

  /** In no run is a table asked to delete what it does not have: neither two handlers that have not deleted their
      session share an identifier, nor two clients that have not left an identity. */
  lemma DeletesNeverPanic(acts: seq<Action>, y: Server, a: Action)
    requires Reaches(acts, y)
    ensures !y.panicked
    ensures Enabled(y, a) ==> !Apply(y, a).panicked
    ensures forall h, i :: 0 <= h < |y.handlers| && 0 <= i < |y.handlers| && y.handlers[h].id == y.handlers[i].id ==>
              y.handlers[h].phase == Closed || y.handlers[i].phase == Closed || h == i
    ensures forall v, w :: 0 <= v < |y.visitors| && 0 <= w < |y.visitors|
                           && y.visitors[v].identity == y.visitors[w].identity ==>
              y.visitors[v].phase == Gone || y.visitors[w].phase == Gone || v == w
  {
    EveryRun(acts, y);
    if Enabled(y, a) {
      StepKeeps(y, a);
    }
    OnePerName(y.clients, y.visitors, y.reg, y.handlers);
  }

  lemma OnePerName(clients: map<Identity, nat>, visitors: seq<Visitor>, reg: Registry, handlers: seq<Handler>)
    requires VisitorsOk(clients, visitors) && Attended(reg, handlers)
    ensures forall h, i :: 0 <= h < |handlers| && 0 <= i < |handlers| && handlers[h].id == handlers[i].id ==>
              handlers[h].phase == Closed || handlers[i].phase == Closed || h == i
    ensures forall v, w :: 0 <= v < |visitors| && 0 <= w < |visitors|
                           && visitors[v].identity == visitors[w].identity ==>
              visitors[v].phase == Gone || visitors[w].phase == Gone || v == w
  {
  }

  /** A connection through which a byte has passed sits in a session that its own target accepted exactly once, with
      the other key's connection on the other side. What was written to each of the two are bytes that were read
      from the other, in their order, each chunk from its start; they are the first bytes that were read, without a
      gap, exactly if no write takes a byte behind a short one. No other connection with either key has passed a
      byte. */
  lemma BytesStayInSession(acts: seq<Action>, y: Server, c: nat) returns (h: nat, side: Side, d: nat)
    requires Reaches(acts, y) && c < |y.conns| && (y.conns[c].got != [] || y.conns[c].sent != [])
    ensures h < |y.handlers| && d < |y.conns| && c != d
    ensures y.conns[c].key == y.handlers[h].At(side).key && y.conns[d].key == y.handlers[h].At(Other(side)).key
    ensures y.handlers[h].accepts == [y.handlers[h].target]
    ensures Relayed(y.handlers[h].At(side).moved, y.conns[c].got, y.conns[d].sent)
    ensures Relayed(y.handlers[h].At(Other(side)).moved, y.conns[d].got, y.conns[c].sent)
    ensures forall e :: 0 <= e < |y.conns| && y.conns[e].key in {y.conns[c].key, y.conns[d].key} && e != c && e != d ==>
              y.conns[e].got == [] && y.conns[e].sent == []
  {
    EveryRun(acts, y);
    h, side := y.conns[c].place.handler, y.conns[c].place.side;
    d := PeerConn(y.handlers, y.conns, c);
    forall e | 0 <= e < |y.conns| && y.conns[e].key in {y.conns[c].key, y.conns[d].key} && e != c && e != d
      ensures y.conns[e].got == [] && y.conns[e].sent == []
    {
      OtherConn(y.handlers, y.conns, h, if y.conns[e].key == y.conns[c].key then side else Other(side), e);
    }
  }

  /** What passes in one direction, in terms of the chunks that the relay has moved. */
  ghost predicate Relayed(ps: seq<Piece>, got: seq<byte>, sent: seq<byte>) {
    && Possible(ps) && sent == Taken(ps) && Chunks(ps) <= got && |Origins(ps)| == |sent|
    && (forall k :: 0 <= k < |sent| ==> Origins(ps)[k] < |got| && sent[k] == got[Origins(ps)[k]])
    && (forall j, k :: 0 <= j < k < |sent| ==> Origins(ps)[j] < Origins(ps)[k])
    && (Origins(ps) == From(0, |sent|) <==> Quits(ps))
    && (Quits(ps) ==> sent <= got)
  }

  lemma MovesRelayed(end: End, got: seq<byte>, sent: seq<byte>)
    requires Moves(end, got, sent)
    ensures Relayed(end.moved, got, sent)
  {
    OriginsExact(end.moved);
    PrefixIff(end.moved);
    if Quits(end.moved) {
      QuitsPrefix(end.moved);
    }
  }

  lemma PeerConn(handlers: seq<Handler>, conns: seq<Conn>, c: nat) returns (d: nat)
    requires ConnPart(handlers, conns) && HandlersOk(handlers)
    requires c < |conns| && (conns[c].got != [] || conns[c].sent != [])
    ensures conns[c].place.Seated? && conns[c].place.handler < |handlers|
    ensures var h, side := conns[c].place.handler, conns[c].place.side; var x := handlers[h];
            && d < |conns| && c != d && x.At(side).seat == Ready(c) && x.At(Other(side)).seat == Ready(d)
            && conns[c].key == x.At(side).key && conns[d].key == x.At(Other(side)).key && x.accepts == [x.target]
            && Relayed(x.At(side).moved, conns[c].got, conns[d].sent)
            && Relayed(x.At(Other(side)).moved, conns[d].got, conns[c].sent)
  {
    assert ConnOk(handlers, c, conns[c]);
    var h, side := conns[c].place.handler, conns[c].place.side;
    assert HandlerOk(handlers[h]);
    RelaySeats(handlers, conns, h, side);
    RelaySeats(handlers, conns, h, Other(side));
    d := handlers[h].At(Other(side)).seat.conn;
    assert SeatOk(handlers, conns, h, Other(side)) && ConnOk(handlers, d, conns[d]);
    MovesRelayed(handlers[h].At(side), conns[c].got, conns[d].sent);
    MovesRelayed(handlers[h].At(Other(side)), conns[d].got, conns[c].sent);
  }

  lemma OtherConn(handlers: seq<Handler>, conns: seq<Conn>, h: nat, side: Side, e: nat)
    requires SeatsOk(handlers, conns) && KeysOnce(handlers) && h < |handlers| && e < |conns|
    requires conns[e].key == handlers[h].At(side).key && Holder(handlers[h].At(side).seat) != Some(e)
    ensures conns[e].got == [] && conns[e].sent == []
  {
  }

  /** In every reachable state a relay has both of its connections, a target's single accept came before it, and the two
      keys were told to clients with the initiator's and the target's identity. */
  lemma RelaysAreAccepted(acts: seq<Action>, y: Server, h: nat, side: Side)
    requires Reaches(acts, y) && h < |y.handlers|
    ensures Told(y.visitors, y.handlers[h])
    ensures Active(y.handlers[h].phase) ==> y.handlers[h].accepts == [y.handlers[h].target]
    ensures Active(y.handlers[h].phase) ==> Started(y, h, side)
    ensures !Active(y.handlers[h].phase) ==> Untouched(y.handlers[h].At(side))
  {
    EveryRun(acts, y);
    assert HandlerOk(y.handlers[h]) && SeatOk(y.handlers, y.conns, h, First) && SeatOk(y.handlers, y.conns, h, Second);
  }
}
