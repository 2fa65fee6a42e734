/** Protocol clients that are built from the transfer tables and driven through a run. */
module TransferClients {
  import opened Blocks
  import opened Transfer
  import opened TransferTables
  import C = Client
  import SR = SenderRuns
  import RR = ReceiverRuns

  /** What a caller makes of a reply. */
  function Heard<D>(r: C.Reply<D, Output>, refusal: TransferError): Output {
    match r
    case Refused => Fail(refusal)
    case Crashed => Panic
    case Done(_, _, out, _) => if out.None? then Quiet else out.value
  }

  /** The client is where the sender of a run is. */
  ghost predicate SenderMatches(sum: Checksum, c: C.Client<SenderData, Message, Output>, s: SenderState)
    reads c, c.cell
  {
    && c.Follows(SenderWrites(sum), SenderReads())
    && c.cell.state == SenderCode(s.phase) && c.data == SenderFields(s)
  }

  method SenderEvent(sum: Checksum, c: C.Client<SenderData, Message, Output>, ev: SR.Event, ghost e: SR.Run)
    returns (o: Output)
    requires e.state.reader.blockSize > 0 && e.running && SenderMatches(sum, c, e.state)
    modifies c, c.cell
    ensures var z := SR.Step(sum, e, ev);
            && z.outputs == e.outputs + [o] && z.running == (o.Emit? || o.Quiet?)
            && (z.running ==> SenderMatches(sum, c, z.state))
  {
    match ev {
      case DoWrite =>
        SenderWritesMean(sum, e.state);
        var r := c.WriteMessage(SenderWrites(sum), SenderReads());
        o := Heard(r, NothingToWrite);
      case DoRead(m) =>
        SenderReadsMean(e.state, m);
        var r := c.ReadMessage(Kind(m), m, SenderWrites(sum), SenderReads());
        o := Heard(r, UnexpectedMessage);
    }
  }

  method NewSenderClient(sum: Checksum, s: SenderState) returns (c: C.Client<SenderData, Message, Output>)
    requires s.phase == Initialized
    ensures fresh(c) && fresh(c.cell) && SenderMatches(sum, c, s)
  {
    SenderWritesCompile(sum);
    SenderReadsCompile();
    var made := C.NewClient(INITIALIZED, DONE, false, SenderWrites(sum), SenderReads(), SenderFields(s));
    c := made.value;
  }

  method DriveSender(sum: Checksum, c: C.Client<SenderData, Message, Output>, ghost s: SenderState, evs: seq<SR.Event>)
    returns (outs: seq<Output>)
    requires s.reader.blockSize > 0 && SenderMatches(sum, c, s)
    modifies c, c.cell
    ensures outs == SR.Events(sum, s, evs).outputs
  {
    ghost var e := SR.Run(s, [], true);
    var running := true;
    outs := [];
    assert evs[..0] == [];
    for i := 0 to |evs|
      invariant e == SR.Events(sum, s, evs[..i]) && outs == e.outputs && running == e.running
      invariant running ==> SenderMatches(sum, c, e.state)
    {
      assert evs[..i + 1][..i] == evs[..i];
      if running {
        var o := SenderEvent(sum, c, evs[i], e);
        outs, running := outs + [o], o.Emit? || o.Quiet?;
        e := SR.Step(sum, e, evs[i]);
      }
    }
    assert evs[..|evs|] == evs;
  }

  /** A client that is compiled from the sender's tables gives, over every run, the outputs of the sender. */
  method RunSender(sum: Checksum, metadata: string, file: seq<byte>, bs: nat, evs: seq<SR.Event>)
    returns (outs: seq<Output>)
    requires bs > 0
    ensures outs == SR.Events(sum, NewSender(metadata, file, bs), evs).outputs
  {
    var c := NewSenderClient(sum, NewSender(metadata, file, bs));
    outs := DriveSender(sum, c, NewSender(metadata, file, bs), evs);
  }

  ghost predicate ReceiverMatches(sum: Checksum, factory: Factory, c: C.Client<ReceiverData, Message, Output>,
                                  r: ReceiverState)
    reads c, c.cell
  {
    && c.Follows(ReceiverWrites(), ReceiverReads(sum, factory))
    && c.cell.state == ReceiverCode(r.phase) && c.data == ReceiverFields(r)
  }

  method ReceiverWriteEvent(sum: Checksum, factory: Factory, c: C.Client<ReceiverData, Message, Output>,
                            ghost r: ReceiverState)
    returns (o: Output)
    requires ReceiverMatches(sum, factory, c, r)
    modifies c, c.cell
    ensures ReceiverWrite(r).1 == o && (o.Emit? ==> ReceiverMatches(sum, factory, c, ReceiverWrite(r).0))
  {
    ReceiverWritesMean(r);
    var x := c.WriteMessage(ReceiverWrites(), ReceiverReads(sum, factory));
    o := Heard(x, NothingToWrite);
  }

  method ReceiverReadEvent(sum: Checksum, factory: Factory, c: C.Client<ReceiverData, Message, Output>, m: Message,
                           ghost r: ReceiverState)
    returns (o: Output)
    requires ReceiverMatches(sum, factory, c, r)
    modifies c, c.cell
    ensures ReceiverRead(sum, factory, r, m).1 == o
    ensures o == Quiet ==> ReceiverMatches(sum, factory, c, ReceiverRead(sum, factory, r, m).0)
  {
    ReceiverReadsMean(sum, factory, r, m);
    var x := c.ReadMessage(Kind(m), m, ReceiverWrites(), ReceiverReads(sum, factory));
    o := Heard(x, UnexpectedMessage);
  }

  method NewReceiverClient(sum: Checksum, factory: Factory) returns (c: C.Client<ReceiverData, Message, Output>)
    ensures fresh(c) && fresh(c.cell) && ReceiverMatches(sum, factory, c, NEW_RECEIVER)
  {
    ReceiverTablesCompile(sum, factory);
    var made := C.NewClient(INITIALIZED, DONE, true, ReceiverWrites(), ReceiverReads(sum, factory),
                            ReceiverFields(NEW_RECEIVER));
    c := made.value;
  }

  method DriveReceiver(sum: Checksum, factory: Factory, c: C.Client<ReceiverData, Message, Output>, evs: seq<RR.Event>)
    returns (outs: seq<Output>)
    requires ReceiverMatches(sum, factory, c, NEW_RECEIVER)
    modifies c, c.cell
    ensures outs == RR.Events(sum, factory, evs).outputs
  {
    ghost var e := RR.Run(NEW_RECEIVER, [], true, [], []);
    var running := true;
    outs := [];
    assert evs[..0] == [];
    for i := 0 to |evs|
      invariant e == RR.Events(sum, factory, evs[..i]) && outs == e.outputs && running == e.running
      invariant running ==> ReceiverMatches(sum, factory, c, e.state)
    {
      assert evs[..i + 1][..i] == evs[..i];
      if running {
        var o: Output;
        if evs[i].DoWrite? {
          o := ReceiverWriteEvent(sum, factory, c, e.state);
          running := o.Emit?;
        } else {
          o := ReceiverReadEvent(sum, factory, c, evs[i].message, e.state);
          running := o == Quiet;
        }
        outs := outs + [o];
        e := RR.Step(sum, factory, e, evs[i]);
      }
    }
    assert evs[..|evs|] == evs;
  }

  /** The same for the receiver. */
  method RunReceiver(sum: Checksum, factory: Factory, evs: seq<RR.Event>) returns (outs: seq<Output>)
    ensures outs == RR.Events(sum, factory, evs).outputs
  {
    var c := NewReceiverClient(sum, factory);
    outs := DriveReceiver(sum, factory, c, evs);
  }
}
