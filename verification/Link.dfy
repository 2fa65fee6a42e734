/** Sender and receiver composed over two FIFO channels. Each side runs its own read-write loop: it stops when its
    protocol is done or a call returns an error; a receiver with something to write writes first, a sender may
    read or write. Blocks on the wire may be corrupted as long as the checksum shows it. */
module Link {
  import opened Blocks
  import opened Transfer
  import Runs

  datatype Job = Job(name: string, file: seq<byte>, blockSize: nat)
  {
    ghost predicate Valid() {
      Sized(blockSize, |file|) && file != []
    }

    function Count(): nat
      requires blockSize > 0
    {
      BlockCount(blockSize, |file|)
    }
  }

  /** `sOk` and `rOk`: that side's loop has not returned an error. `down` and `up` are all messages that were ever
      written by each side, `spoiled` is the number of blocks that were corrupted on the wire. */
  datatype System = System(
    s: SenderState, r: ReceiverState, toR: seq<Message>, toS: seq<Message>,
    sOk: bool, rOk: bool, crashed: bool, down: seq<Message>, up: seq<Message>, spoiled: nat)

  function Start(job: Job): System
    requires job.blockSize > 0
  {
    System(NewSender(job.name, job.file, job.blockSize), NEW_RECEIVER, [], [], true, true, false, [], [], 0)
  }

  datatype Action =
    | SenderWrites
    | SenderReads
    | ReceiverWrites
    | ReceiverReads
    | Corrupt(at: nat, data: seq<byte>, checksum: seq<byte>)

  predicate Enabled(sum: Checksum, y: System, a: Action) {
    !y.crashed &&
    match a
    case SenderWrites => y.sOk && y.s.phase != Done && SenderCanWrite(y.s.phase)
    case SenderReads => y.sOk && y.s.phase != Done && y.toS != []
    case ReceiverWrites => y.rOk && y.r.phase != Finished && ReceiverCanWrite(y.r.phase)
    case ReceiverReads => y.rOk && y.r.phase != Finished && !ReceiverCanWrite(y.r.phase) && y.toR != []
    case Corrupt(k, data, checksum) =>
      && k < |y.toR| && y.toR[k].BlockData?
      && |data| == |y.toR[k].block.data| && checksum != sum(y.toR[k].block.index, data)
  }

  function AfterSender(y: System, s: SenderState, o: Output): System {
    var z := y.(s := s, sOk := o.Emit? || o.Quiet?, crashed := o == Panic);
    if o.Emit? then z.(toR := y.toR + [o.message], down := y.down + [o.message]) else z
  }

  function AfterReceiver(y: System, r: ReceiverState, o: Output): System {
    var z := y.(r := r, rOk := o.Emit? || o.Quiet?, crashed := o == Panic);
    if o.Emit? then z.(toS := y.toS + [o.message], up := y.up + [o.message]) else z
  }

  function Apply(sum: Checksum, factory: Factory, y: System, a: Action): System
    requires Enabled(sum, y, a) && y.s.reader.blockSize > 0
  {
    match a
    case SenderWrites =>
      var (s, o) := SenderWrite(sum, y.s);
      AfterSender(y, s, o)
    case SenderReads =>
      var (s, o) := SenderRead(y.s, y.toS[0]);
      AfterSender(y.(toS := y.toS[1..]), s, o)
    case ReceiverWrites =>
      var (r, o) := ReceiverWrite(y.r);
      AfterReceiver(y, r, o)
    case ReceiverReads =>
      var (r, o) := ReceiverRead(sum, factory, y.r, y.toR[0]);
      AfterReceiver(y.(toR := y.toR[1..]), r, o)
    case Corrupt(k, data, checksum) =>
      var b := y.toR[k].block;
      y.(toR := y.toR[k := BlockData(Block(b.index, data, checksum))],
         spoiled := y.spoiled + if b.checksum == sum(b.index, b.data) then 1 else 0)
  }

  ghost predicate Step(sum: Checksum, factory: Factory, y: System, a: Action, z: System) {
    Enabled(sum, y, a) && y.s.reader.blockSize > 0 && z == Apply(sum, factory, y, a)
  }

  /** `y` is reached from the start of `job` by the actions in turn, each one enabled when it is taken. */
  ghost predicate Reaches(sum: Checksum, factory: Factory, job: Job, acts: seq<Action>, y: System)
    requires job.Valid()
  {
    Runs.Reaches(Start(job), (x, a, z) => Step(sum, factory, x, a, z), acts, y)
  }

  /** The transfer is complete on both sides. */
  predicate Complete(y: System) {
    y.s.phase == Done && y.r.phase == Finished
  }
}
