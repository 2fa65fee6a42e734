/** Automata at work: the shared state cell, the state handle, and the protocol client built from two tables. */
module Client {
  import opened Blocks
  import opened Automaton

  /** The state that a client and the closures of its compiled tables share. */
  class Cell {
    var state: State

    constructor (initial: State)
      ensures state == initial
    {
      state := initial;
    }
  }

  class StateHandle {
    const cell: Cell
    const original: seq<State>
    const target: seq<State>
    var mutated: bool

    constructor (cell: Cell, original: seq<State>, target: seq<State>)
      ensures this.cell == cell && this.original == original && this.target == target && !mutated
    {
      this.cell, this.original, this.target, mutated := cell, original, target, false;
    }

    /** The handle as a value. */
    ghost function Now(): HandleResult
      reads this, cell
    {
      Handled(cell.state, mutated)
    }

    method Set(s: State) returns (panic: Option<RunError>)
      modifies this`mutated, cell`state
      ensures var r := Call(HandleOp.Set(s), original, target, old(cell.state), old(mutated));
              if panic.Some? then r == HandlePanic(panic.value) else r == Now()
    {
      var legal := Contains(target, s);
      if !legal {
        return Some(IllegalStateMutation);
      }
      if mutated {
        return Some(MultipleStateMutations);
      }
      mutated := true;
      cell.state := s;
      return None;
    }

    method Is(s: State) returns (yes: bool, panic: Option<RunError>)
      ensures var r := Call(HandleOp.Is(s), original, target, cell.state, mutated);
              if panic.Some? then r == HandlePanic(panic.value) else r == Now() && (yes <==> cell.state == s)
    {
      yes := cell.state == s;
      if mutated {
        return false, Some(UnexpectedMutatedState);
      }
      var possible := Contains(original, s);
      panic := if possible then None else Some(NonTriggeringState);
    }
  }

  method Contains(states: seq<State>, s: State) returns (found: bool)
    ensures found <==> s in states
  {
    for i := 0 to |states|
      invariant s !in states[..i]
    {
      if states[i] == s {
        return true;
      }
    }
    return false;
  }

  /** The compiled closure of a transition, on the shared cell. */
  method Invoke<D, I, O>(cell: Cell, t: Transition<D, I, O>, data: D, input: I) returns (o: Outcome<D, O>)
    modifies cell
    ensures o == Fire(t, old(cell.state), data, input)
    ensures o.Moved? ==> cell.state == o.state
  {
    var handle := new StateHandle(cell, Origins(t), Targets(t));
    var ran := HandlerEffect(t, cell.state, data, input);
    for i := 0 to |ran.ops|
      invariant Calls(ran.ops, Origins(t), Targets(t), old(cell.state), false)
             == Calls(ran.ops[i..], Origins(t), Targets(t), cell.state, handle.mutated)
    {
      var panic: Option<RunError>;
      match ran.ops[i] {
        case Set(s) => panic := handle.Set(s);
        case Is(s) => var _, p := handle.Is(s); panic := p;
        case Crash => panic := Some(HandlerPanic);
      }
      assert ran.ops[i..][0] == ran.ops[i] && ran.ops[i..][1..] == ran.ops[i + 1..];
      if panic.Some? {
        return Panicked(panic.value);
      }
    }
    if t.to != NO_STATE {
      cell.state := t.to;
    }
    if ran.failed && handle.mutated {
      return Panicked(NewStateWithError);
    }
    if !ran.failed && t.ok.Some? && !handle.mutated {
      return Panicked(OkWithoutMutation);
    }
    return Moved(cell.state, ran.data, ran.out, ran.failed);
  }

  // ---- the client ----

  /** What a call of the client gives back: `Refused` stands for nothing to write or an unexpected message. */
  datatype Reply<+D, +O> = Done(state: State, data: D, out: Option<O>, failed: bool) | Refused | Crashed

  /** How the client reads an outcome; a written message must not be missing. */
  function Served<D, O>(o: Outcome<D, O>, writing: bool): Reply<D, O> {
    match o
    case Moved(state, data, out, failed) => if writing && out.None? then Crashed else Done(state, data, out, failed)
    case Panicked(_) => Crashed
    case _ => Refused
  }

  /** `WriteMessage` read off the table of writes. */
  function Write<D, O>(writes: Table<D, (), O>, cur: State, data: D): Reply<D, O> {
    Served(Interpret(writes, StateKey(cur), cur, cur, data, ()), true)
  }

  /** `ReadMessage` read off the table of reads. */
  function Read<D, I, O>(reads': Table<D, I, O>, kind: nat, cur: State, data: D, message: I): Reply<D, O> {
    Served(Interpret(reads', OtherKey(kind), cur, cur, data, message), false)
  }

  /** There is nothing to write exactly if the state is no key or its key has no transition. */
  lemma NothingToWriteIff<D, O>(writes: Table<D, (), O>, cur: State, data: D)
    ensures Write(writes, cur, data).Refused? <==> StateKey(cur) !in writes || writes[StateKey(cur)] == []
  {
    if StateKey(cur) in writes && writes[StateKey(cur)] != [] {
      var ts := writes[StateKey(cur)];
      assert cur in Triggers(StateKey(cur), ts[0]);
    }
  }

  /** A message is refused exactly if no transition under its kind is triggered by the state. */
  lemma UnexpectedIff<D, I, O>(reads': Table<D, I, O>, kind: nat, cur: State, data: D, message: I)
    ensures Read(reads', kind, cur, data, message).Refused? <==>
              OtherKey(kind) in reads' ==>
                forall i :: 0 <= i < |reads'[OtherKey(kind)]| ==>
                  cur !in Triggers(OtherKey(kind), reads'[OtherKey(kind)][i])
  {
  }

  /** Reading with a transition that leaves the state handle alone. */
  lemma ReadsPlainly<D, I, O>(reads': Table<D, I, O>, kind: nat, ts: seq<Transition<D, I, O>>, i: nat, cur: State,
                              data: D, message: I, e: Effect<D, O>)
    requires OtherKey(kind) in reads' && ts == reads'[OtherKey(kind)] && i < |ts|
    requires ts[i].at.Some? && cur in ts[i].at.value && ts[i].ok.None? && Flaw(ts[i]).None?
    requires forall k :: 0 <= k < i ==> cur !in Triggers(OtherKey(kind), ts[k])
    requires HandlerEffect(ts[i], cur, data, message) == e
    ensures e.ops == [] ==>
              Read(reads', kind, cur, data, message)
              == Done(if ts[i].to != NO_STATE then ts[i].to else cur, e.data, e.out, e.failed)
    ensures e.ops == [HandleOp.Crash] ==> Read(reads', kind, cur, data, message) == Crashed
  {
    FiresFirst(reads', OtherKey(kind), i, cur, cur, data, message);
    FiresPlainly(Filled(OtherKey(kind), ts[i]), cur, data, message, e);
  }

  /** No state that triggers a write triggers a read, as a definition with `WriteFirst` promises. */
  ghost predicate KeepsWriteFirst<D, I, O>(writes: Table<D, (), O>, reads': Table<D, I, O>) {
    forall key, i, s :: key in reads' && 0 <= i < |reads'[key]| && s in Triggers(key, reads'[key][i]) ==>
      StateKey(s) !in writes
  }

  class Client<D, I, O> {
    const cell: Cell
    const writer: Compiled<D, (), O>
    const reader: Compiled<D, I, O>
    const writeAt: set<State>
    const writeFirst: bool
    const finalState: State
    var data: D

    constructor (cell: Cell, writer: Compiled<D, (), O>, reader: Compiled<D, I, O>, writeAt: set<State>,
                 writeFirst: bool, finalState: State, data: D)
      ensures this.cell == cell && this.writer == writer && this.reader == reader && this.writeAt == writeAt
      ensures this.writeFirst == writeFirst && this.finalState == finalState && this.data == data
    {
      this.cell, this.writer, this.reader, this.writeAt := cell, writer, reader, writeAt;
      this.writeFirst, this.finalState, this.data := writeFirst, finalState, data;
    }

    /** The client was built from these two tables. */
    ghost predicate Follows(writes: Table<D, (), O>, reads': Table<D, I, O>) {
      && WellFormed(writes) && IsCompiled(writes, writer)
      && WellFormed(reads') && IsCompiled(reads', reader)
      && forall s :: s in writeAt <==> StateKey(s) in writes
    }

    method WriteMessage(ghost writes: Table<D, (), O>, ghost reads': Table<D, I, O>) returns (r: Reply<D, O>)
      requires Follows(writes, reads')
      modifies this, cell
      ensures r == Write(writes, old(cell.state), old(data))
      ensures r.Done? ==> cell.state == r.state && data == r.data
      ensures r.Refused? ==> cell.state == old(cell.state) && data == old(data)
    {
      CompiledMeansTable(writes, writer, StateKey(cell.state), cell.state, cell.state, data, ());
      var key := StateKey(cell.state);
      if key !in writer || cell.state !in writer[key] {
        return Refused;
      }
      var o := Invoke(cell, writer[key][cell.state], data, ());
      if o.Moved? {
        data := o.data;
      }
      r := Served(o, true);
    }

    method ReadMessage(kind: nat, message: I, ghost writes: Table<D, (), O>, ghost reads': Table<D, I, O>)
      returns (r: Reply<D, O>)
      requires Follows(writes, reads')
      modifies this, cell
      ensures r == Read(reads', kind, old(cell.state), old(data), message)
      ensures r.Done? ==> cell.state == r.state && data == r.data
      ensures r.Refused? ==> cell.state == old(cell.state) && data == old(data)
    {
      CompiledMeansTable(reads', reader, OtherKey(kind), cell.state, cell.state, data, message);
      var key := OtherKey(kind);
      if key !in reader || cell.state !in reader[key] {
        return Refused;
      }
      var o := Invoke(cell, reader[key][cell.state], data, message);
      if o.Moved? {
        data := o.data;
      }
      r := Served(o, false);
    }

    /** `CanWrite` may be true with nothing to write only where a key has no transition. */
    method CanWrite(ghost writes: Table<D, (), O>, ghost reads': Table<D, I, O>) returns (b: bool)
      requires Follows(writes, reads')
      ensures b <==> StateKey(cell.state) in writes
      ensures !b ==> Write(writes, cell.state, data).Refused?
      ensures b ==> (Write(writes, cell.state, data).Refused? <==> writes[StateKey(cell.state)] == [])
    {
      NothingToWriteIff(writes, cell.state, data);
      b := cell.state in writeAt;
    }

    /** While a client that keeps its promise must write, it would refuse every message. */
    method MustWrite(ghost writes: Table<D, (), O>, ghost reads': Table<D, I, O>, ghost kind: nat, ghost message: I)
      returns (b: bool)
      requires Follows(writes, reads')
      ensures b <==> writeFirst && StateKey(cell.state) in writes
      ensures b && KeepsWriteFirst(writes, reads') ==> Read(reads', kind, cell.state, data, message).Refused?
    {
      UnexpectedIff(reads', kind, cell.state, data, message);
      b := writeFirst && cell.state in writeAt;
    }

    method IsDone() returns (b: bool)
      ensures b <==> cell.state == finalState
    {
      b := cell.state == finalState;
    }
  }

  /** Builds a client: it panics unless both states are given, both tables compile and every write key is a state. */
  method NewClient<D, I, O>(initial: State, final: State, writeFirst: bool, writes: Table<D, (), O>,
                            reads': Table<D, I, O>, data: D)
    returns (c: Option<Client<D, I, O>>)
    ensures c.Some? <==> initial != NO_STATE && final != NO_STATE && WellFormed(writes) && WellFormed(reads')
                         && forall key :: key in writes ==> key.StateKey?
    ensures c.Some? ==> fresh(c.value) && fresh(c.value.cell) && c.value.Follows(writes, reads')
                        && c.value.cell.state == initial && c.value.finalState == final && c.value.data == data
                        && c.value.writeFirst == writeFirst
  {
    if initial == NO_STATE || final == NO_STATE {
      return None;
    }
    var cell := new Cell(initial);
    var writer := Compile(writes);
    if writer.Err? {
      return None;
    }
    var reader := Compile(reads');
    if reader.Err? {
      return None;
    }
    var keys, writeAt := writer.value.Keys, {};
    while keys != {}
      invariant keys <= writes.Keys
      invariant forall key :: key in writes.Keys - keys ==> key.StateKey?
      invariant forall s :: s in writeAt <==> StateKey(s) in writes.Keys - keys
      decreases |keys|
    {
      var key :| key in keys;
      if key.OtherKey? {
        return None;
      }
      keys, writeAt := keys - {key}, writeAt + {key.state};
    }
    var client := new Client(cell, writer.value, reader.value, writeAt, writeFirst, final, data);
    return Some(client);
  }
}
