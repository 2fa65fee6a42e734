/** Automata: a declarative table of transitions, its compilation into nested maps, and what a transition does. */
module Automaton {
  import opened Blocks

  type State = nat
  const NO_STATE: State := 0

  /** A table key is either itself a state or something else, such as a message type. */
  datatype Key = StateKey(state: State) | OtherKey(tag: nat)

  /** A call of a handler on its state handle, or a panic of its own. */
  datatype HandleOp = Set(target: State) | Is(asked: State) | Crash

  /** What a handler does: new data, the calls on the state handle in order, an output if it has one, and whether it
      returns an error. */
  datatype Effect<+D, +O> = Effect(data: D, ops: seq<HandleOp>, out: Option<O>, failed: bool)

  type Handler<!D, !I, +O> = (D, State, I) -> Effect<D, O>

  datatype Transition<!D, !I, +O> = Transition(
    at: Option<seq<State>>, ok: Option<seq<State>>, to: State, do: Option<Handler<D, I, O>>)

  type Table<!D, !I, +O> = map<Key, seq<Transition<D, I, O>>>
  type Compiled<!D, !I, +O> = map<Key, map<State, Transition<D, I, O>>>

  datatype CompileError =
    | AmbiguousAtAndKey | MissingTriggerState | AmbiguousTransitions | OkWithTo | OkWithoutDo | EmptyTransition

  datatype Result<+T> = Ok(value: T) | Err(error: CompileError)

  // ---- well-formed tables ----

  /** The check of a single transition. */
  function Flaw<D, I, O>(t: Transition<D, I, O>): Option<CompileError> {
    if t.ok.None? then
      if t.do.None? && t.to == NO_STATE then Some(EmptyTransition) else None
    else if t.to != NO_STATE then Some(OkWithTo)
    else if t.do.None? then Some(OkWithoutDo)
    else None
  }

  /** The states that trigger a transition under a key. */
  function Triggers<D, I, O>(key: Key, t: Transition<D, I, O>): seq<State> {
    if key.StateKey? then [key.state] else if t.at.Some? then t.at.value else []
  }

  /** The transition with its triggering states filled in, as the compiled closure sees it. */
  function Filled<D, I, O>(key: Key, t: Transition<D, I, O>): Transition<D, I, O> {
    t.(at := Some(Triggers(key, t)))
  }

  /** All triggering states of a list of transitions, each with the number of its transition. */
  ghost function Entries<D, I, O>(key: Key, ts: seq<Transition<D, I, O>>): seq<(State, nat)> {
    if ts == [] then []
    else
      var n := |ts| - 1;
      Entries(key, ts[..n]) + seq(|Triggers(key, ts[n])|,
                                  j requires 0 <= j < |Triggers(key, ts[n])| => (Triggers(key, ts[n])[j], n))
  }

  ghost predicate Distinct(es: seq<(State, nat)>) {
    forall i, j :: 0 <= i < j < |es| ==> es[i].0 != es[j].0
  }

  ghost predicate KeyOk<D, I, O>(key: Key, ts: seq<Transition<D, I, O>>) {
    && (key.StateKey? ==> |ts| <= 1)
    && (forall i :: 0 <= i < |ts| ==> Sound(key, ts[i]))
    && Distinct(Entries(key, ts))
  }

  ghost predicate WellFormed<D, I, O>(table: Table<D, I, O>) {
    forall key :: key in table ==> KeyOk(key, table[key])
  }

  /** The flaw that an error reports is there. */
  ghost predicate Justified<D, I, O>(key: Key, ts: seq<Transition<D, I, O>>, e: CompileError) {
    match e
    case AmbiguousTransitions => (key.StateKey? && |ts| > 1) || !Distinct(Entries(key, ts))
    case AmbiguousAtAndKey => key.StateKey? && exists i :: 0 <= i < |ts| && ts[i].at.Some?
    case MissingTriggerState => key.OtherKey? && exists i :: 0 <= i < |ts| && ts[i].at.None?
    case _ => exists i :: 0 <= i < |ts| && Flaw(ts[i]) == Some(e)
  }

  // ---- compilation ----

  /** The map holds exactly the entries. */
  ghost predicate Holds<D, I, O>(key: Key, ts: seq<Transition<D, I, O>>, es: seq<(State, nat)>,
                                 h: map<State, Transition<D, I, O>>) {
    && (forall k :: 0 <= k < |es| ==> es[k].1 < |ts| && es[k].0 in h && h[es[k].0] == Filled(key, ts[es[k].1]))
    && (forall s :: s in h ==> exists k :: 0 <= k < |es| && es[k].0 == s)
  }

  /** The entries met so far are unambiguous and in the map. */
  ghost predicate Made<D, I, O>(key: Key, ts: seq<Transition<D, I, O>>, es: seq<(State, nat)>,
                                h: map<State, Transition<D, I, O>>) {
    Distinct(es) && Holds(key, ts, es, h)
  }

  lemma {:induction false} EntriesInTable<D, I, O>(key: Key, ts: seq<Transition<D, I, O>>, s: State, i: nat)
    ensures (s, i) in Entries(key, ts) <==> i < |ts| && s in Triggers(key, ts[i])
  {
    if ts != [] {
      var n := |ts| - 1;
      EntriesInTable(key, ts[..n], s, i);
      var tr := Triggers(key, ts[n]);
      var last := seq(|tr|, j requires 0 <= j < |tr| => (tr[j], n));
      assert Entries(key, ts) == Entries(key, ts[..n]) + last;
      if s in tr && i == n {
        var j :| 0 <= j < |tr| && tr[j] == s;
        assert last[j] == (s, i);
      }
    }
  }

  lemma {:induction false} EntriesPrefix<D, I, O>(key: Key, ts: seq<Transition<D, I, O>>, n: nat)
    requires n <= |ts|
    ensures Entries(key, ts[..n]) <= Entries(key, ts)
  {
    if n < |ts| {
      assert ts[..|ts| - 1][..n] == ts[..n];
      EntriesPrefix(key, ts[..|ts| - 1], n);
    } else {
      assert ts[..n] == ts;
    }
  }

  /** No state twice in one transition, none in two. */
  ghost predicate Unambiguous<D, I, O>(key: Key, ts: seq<Transition<D, I, O>>) {
    && (forall i, j, k :: 0 <= i < |ts| && 0 <= j < k < |Triggers(key, ts[i])| ==>
          Triggers(key, ts[i])[j] != Triggers(key, ts[i])[k])
    && (forall i, j, s :: 0 <= i < j < |ts| && s in Triggers(key, ts[i]) ==> s !in Triggers(key, ts[j]))
  }

  lemma {:induction false} UnambiguousDistinct<D, I, O>(key: Key, ts: seq<Transition<D, I, O>>)
    requires Unambiguous(key, ts)
    ensures Distinct(Entries(key, ts))
  {
    if ts != [] {
      var n := |ts| - 1;
      UnambiguousDistinct(key, ts[..n]);
      assert ts[..|ts|] == ts;
      RowsMakeEntries(key, ts, n);
      var es, row := Entries(key, ts[..n]), Row(Triggers(key, ts[n]), n, |Triggers(key, ts[n])|);
      forall i, j | 0 <= i < |es| && 0 <= j < |row|
        ensures es[i].0 != row[j].0
      {
        assert es[i] in es;
        EntriesInTable(key, ts[..n], es[i].0, es[i].1);
        assert row[j].0 in Triggers(key, ts[n]);
      }
    }
  }

  /** The first `j` triggers of transition `i`, as entries. */
  ghost function Row(at: seq<State>, i: nat, j: nat): seq<(State, nat)>
    requires j <= |at|
  {
    seq(j, k requires 0 <= k < j => (at[k], i))
  }

  lemma RowSnoc(es: seq<(State, nat)>, at: seq<State>, i: nat, j: nat)
    requires j < |at|
    ensures es + Row(at, i, j + 1) == es + Row(at, i, j) + [(at[j], i)]
  {
  }

  lemma HoldsSnoc<D, I, O>(key: Key, ts: seq<Transition<D, I, O>>, es: seq<(State, nat)>, s: State, i: nat,
                           h: map<State, Transition<D, I, O>>)
    requires i < |ts| && Made(key, ts, es, h)
    ensures if s in h then !Distinct(es + [(s, i)]) else Made(key, ts, es + [(s, i)], h[s := Filled(key, ts[i])])
  {
    var es' := es + [(s, i)];
    if s in h {
      var k :| 0 <= k < |es| && es[k].0 == s;
      assert es'[k].0 == es'[|es|].0;
    } else {
      forall x | x in h
        ensures exists k :: 0 <= k < |es'| && es'[k].0 == x
      {
        var k :| 0 <= k < |es| && es[k].0 == x;
        assert es'[k].0 == x;
      }
      assert es'[|es|].0 == s;
    }
  }

  lemma RowsMakeEntries<D, I, O>(key: Key, ts: seq<Transition<D, I, O>>, i: nat)
    requires i < |ts|
    ensures Entries(key, ts[..i + 1]) == Entries(key, ts[..i]) + Row(Triggers(key, ts[i]), i, |Triggers(key, ts[i])|)
  {
    assert ts[..i + 1][..i] == ts[..i];
  }

  /** A shared prefix with a clash makes the whole list ambiguous. */
  lemma ClashStays<D, I, O>(key: Key, ts: seq<Transition<D, I, O>>, i: nat, j: nat)
    requires i < |ts| && j <= |Triggers(key, ts[i])|
    requires !Distinct(Entries(key, ts[..i]) + Row(Triggers(key, ts[i]), i, j))
    ensures !Distinct(Entries(key, ts))
  {
    RowsMakeEntries(key, ts, i);
    EntriesPrefix(key, ts, i + 1);
    var es, all := Entries(key, ts[..i]) + Row(Triggers(key, ts[i]), i, j), Entries(key, ts);
    assert forall k :: 0 <= k < |es| ==> es[k] == all[k];
  }

  /** Compiles one transition under a key: its checks, then one entry for each state that triggers it. */
  method CompileTransition<D, I, O>(key: Key, ts: seq<Transition<D, I, O>>, i: nat,
                                    made: map<State, Transition<D, I, O>>)
    returns (r: Result<map<State, Transition<D, I, O>>>)
    requires i < |ts| && Made(key, ts, Entries(key, ts[..i]), made)
    ensures r.Ok? ==> Flaw(ts[i]).None? && Made(key, ts, Entries(key, ts[..i + 1]), r.value)
    ensures r.Err? ==>
              (Flaw(ts[i]) == Some(r.error) || (r.error == AmbiguousTransitions && !Distinct(Entries(key, ts))))
  {
    var flaw := Flaw(ts[i]);
    if flaw.Some? {
      return Err(flaw.value);
    }
    var at := Triggers(key, ts[i]);
    var handlers: map<State, Transition<D, I, O>> := made;
    ghost var es := Entries(key, ts[..i]);
    assert es + Row(at, i, 0) == es;
    for j := 0 to |at|
      invariant Made(key, ts, es + Row(at, i, j), handlers)
    {
      HoldsSnoc(key, ts, es + Row(at, i, j), at[j], i, handlers);
      RowSnoc(es, at, i, j);
      if at[j] in handlers {
        ClashStays(key, ts, i, j + 1);
        return Err(AmbiguousTransitions);
      }
      handlers := handlers[at[j] := Filled(key, ts[i])];
    }
    RowsMakeEntries(key, ts, i);
    return Ok(handlers);
  }

  /** The part of `KeyOk` that concerns single transitions. */
  predicate Sound<D, I, O>(key: Key, t: Transition<D, I, O>) {
    t.at.Some? == key.OtherKey? && Flaw(t).None?
  }

  /** Compiles the transitions under one key into a map from states. */
  method CompileKey<D, I, O>(key: Key, ts: seq<Transition<D, I, O>>)
    returns (r: Result<map<State, Transition<D, I, O>>>)
    ensures r.Ok? <==> KeyOk(key, ts)
    ensures r.Ok? ==> KeyHolds(key, ts, r.value)
    ensures r.Err? ==> Justified(key, ts, r.error)
  {
    if key.StateKey? && |ts| > 1 {
      return Err(AmbiguousTransitions);
    }
    var handlers: map<State, Transition<D, I, O>> := map[];
    for i := 0 to |ts|
      invariant forall k :: 0 <= k < i ==> Sound(key, ts[k])
      invariant Made(key, ts, Entries(key, ts[..i]), handlers)
    {
      if key.StateKey? {
        if ts[i].at.Some? {
          return Err(AmbiguousAtAndKey);
        }
      } else if ts[i].at.None? {
        return Err(MissingTriggerState);
      }
      var made := CompileTransition(key, ts, i, handlers);
      if made.Err? {
        return Err(made.error);
      }
      handlers := made.value;
    }
    assert ts[..|ts|] == ts;
    return Ok(handlers);
  }

  ghost predicate KeyHolds<D, I, O>(key: Key, ts: seq<Transition<D, I, O>>, h: map<State, Transition<D, I, O>>) {
    Holds(key, ts, Entries(key, ts), h)
  }

  /** The compiled maps hold exactly what the table declares. */
  ghost predicate IsCompiled<D, I, O>(table: Table<D, I, O>, c: Compiled<D, I, O>) {
    && c.Keys == table.Keys
    && forall key :: key in table ==> KeyHolds(key, table[key], c[key])
  }

  /** Compilation succeeds exactly on well-formed tables, whatever order the keys are visited in; a reported flaw is
      one that the table has. */
  method Compile<D, I, O>(table: Table<D, I, O>) returns (r: Result<Compiled<D, I, O>>)
    ensures r.Ok? <==> WellFormed(table)
    ensures r.Ok? ==> IsCompiled(table, r.value)
    ensures r.Err? ==> exists key :: key in table && Justified(key, table[key], r.error)
  {
    var todo := table.Keys;
    var compiled: Compiled<D, I, O> := map[];
    while todo != {}
      invariant todo <= table.Keys && compiled.Keys == table.Keys - todo
      invariant forall key :: key in compiled ==> KeyOk(key, table[key])
      invariant forall key :: key in compiled ==> KeyHolds(key, table[key], compiled[key])
      decreases |todo|
    {
      var key :| key in todo;
      var handlers := CompileKey(key, table[key]);
      if handlers.Err? {
        return Err(handlers.error);
      }
      compiled := compiled[key := handlers.value];
      todo := todo - {key};
    }
    return Ok(compiled);
  }

  // ---- what a transition does ----

  datatype RunError =
    | IllegalStateMutation | MultipleStateMutations | UnexpectedMutatedState | NonTriggeringState
    | NewStateWithError | OkWithoutMutation | HandlerPanic

  datatype HandleResult = Handled(state: State, mutated: bool) | HandlePanic(error: RunError)

  /** One call on a state handle. */
  function Call(op: HandleOp, at: seq<State>, ok: seq<State>, state: State, mutated: bool): HandleResult {
    match op
    case Set(s) =>
      if s !in ok then HandlePanic(IllegalStateMutation)
      else if mutated then HandlePanic(MultipleStateMutations)
      else Handled(s, true)
    case Is(s) =>
      if mutated then HandlePanic(UnexpectedMutatedState)
      else if s !in at then HandlePanic(NonTriggeringState)
      else Handled(state, mutated)
    case Crash => HandlePanic(HandlerPanic)
  }

  /** The calls of a handler on a state handle, in turn. */
  function Calls(ops: seq<HandleOp>, at: seq<State>, ok: seq<State>, state: State, mutated: bool): HandleResult {
    if ops == [] then Handled(state, mutated)
    else
      match Call(ops[0], at, ok, state, mutated)
      case HandlePanic(e) => HandlePanic(e)
      case Handled(s, m) => Calls(ops[1..], at, ok, s, m)
  }

  datatype Outcome<+D, +O> =
    | Moved(state: State, data: D, out: Option<O>, failed: bool)
    | BadTransitionKey
    | BadTransitionState
    | Panicked(error: RunError)

  /** The targets a handler may set: none if `Ok` is not given. */
  function Targets<D, I, O>(t: Transition<D, I, O>): seq<State> {
    if t.ok.Some? then t.ok.value else []
  }

  /** The states a handler may ask for. */
  function Origins<D, I, O>(t: Transition<D, I, O>): seq<State> {
    if t.at.Some? then t.at.value else []
  }

  /** What the handler of a transition does; no handler does nothing. */
  function HandlerEffect<D, I, O>(t: Transition<D, I, O>, cur: State, data: D, input: I): Effect<D, O> {
    if t.do.Some? then t.do.value(data, cur, input) else Effect(data, [], None, false)
  }

  /** The compiled closure: run the handler, then apply `To`, then check the mutation rules. */
  function Fire<D, I, O>(t: Transition<D, I, O>, cur: State, data: D, input: I): Outcome<D, O> {
    var ran := HandlerEffect(t, cur, data, input);
    match Calls(ran.ops, Origins(t), Targets(t), cur, false)
    case HandlePanic(e) => Panicked(e)
    case Handled(state, mutated) =>
      if ran.failed && mutated then Panicked(NewStateWithError)
      else if !ran.failed && t.ok.Some? && !mutated then Panicked(OkWithoutMutation)
      else Moved(if t.to != NO_STATE then t.to else state, ran.data, ran.out, ran.failed)
  }

  /** `Transition` on the compiled maps. */
  function Lookup<D, I, O>(c: Compiled<D, I, O>, key: Key, at: State, cur: State, data: D, input: I): Outcome<D, O> {
    if key !in c then BadTransitionKey
    else if at !in c[key] then BadTransitionState
    else Fire(c[key][at], cur, data, input)
  }

  /** The first declared transition under a key that the state triggers. */
  function Declared<D, I, O>(key: Key, ts: seq<Transition<D, I, O>>, cur: State): (r: Option<nat>)
    ensures r.Some? ==> r.value < |ts| && cur in Triggers(key, ts[r.value])
    ensures r.Some? ==> forall i :: 0 <= i < r.value ==> cur !in Triggers(key, ts[i])
    ensures r.None? ==> forall i :: 0 <= i < |ts| ==> cur !in Triggers(key, ts[i])
  {
    if ts == [] then None
    else
      var n := |ts| - 1;
      var r := Declared(key, ts[..n], cur);
      if r.Some? then r else if cur in Triggers(key, ts[n]) then Some(n) else None
  }

  /** The meaning of a table, read off directly. */
  function Interpret<D, I, O>(table: Table<D, I, O>, key: Key, at: State, cur: State, data: D, input: I)
    : Outcome<D, O>
  {
    if key !in table then BadTransitionKey
    else
      var i := Declared(key, table[key], at);
      if i.None? then BadTransitionState else Fire(Filled(key, table[key][i.value]), cur, data, input)
  }

  /** The interpretation fires the first transition that the state triggers. */
  lemma FiresFirst<D, I, O>(table: Table<D, I, O>, key: Key, i: nat, at: State, cur: State, data: D, input: I)
    requires key in table && i < |table[key]| && at in Triggers(key, table[key][i])
    requires forall k :: 0 <= k < i ==> at !in Triggers(key, table[key][k])
    ensures Interpret(table, key, at, cur, data, input) == Fire(Filled(key, table[key][i]), cur, data, input)
  {
  }

  /** A transition whose handler makes at most one call on the state handle. */
  lemma FiresPlainly<D, I, O>(t: Transition<D, I, O>, cur: State, data: D, input: I, e: Effect<D, O>)
    requires HandlerEffect(t, cur, data, input) == e && Flaw(t).None?
    ensures e.ops == [] && (t.ok.None? || e.failed) ==>
              Fire(t, cur, data, input) == Moved(if t.to != NO_STATE then t.to else cur, e.data, e.out, e.failed)
    ensures e.ops == [Crash] ==> Fire(t, cur, data, input) == Panicked(HandlerPanic)
    ensures |e.ops| == 1 && e.ops[0].Set? && !e.failed && t.ok.Some? && e.ops[0].target in t.ok.value ==>
              Fire(t, cur, data, input) == Moved(e.ops[0].target, e.data, e.out, false)
  {
    if |e.ops| == 1 && e.ops[0].Set? {
      var x := e.ops[0].target;
      assert Calls(e.ops[1..], Origins(t), Targets(t), x, true) == Handled(x, true);
    }
  }

  // ---- compilation preserves meaning ----

  lemma SameEntry(es: seq<(State, nat)>, s: State, i: nat, j: nat)
    requires Distinct(es) && (s, i) in es && (s, j) in es
    ensures i == j
  {
  }

  /** In a well-formed table a state triggers at most one transition under a key. */
  lemma OneFires<D, I, O>(key: Key, ts: seq<Transition<D, I, O>>, s: State, i: nat, j: nat)
    requires KeyOk(key, ts) && i < |ts| && j < |ts| && s in Triggers(key, ts[i]) && s in Triggers(key, ts[j])
    ensures i == j
  {
    EntriesInTable(key, ts, s, i);
    EntriesInTable(key, ts, s, j);
    SameEntry(Entries(key, ts), s, i, j);
  }

  lemma HeldTransition<D, I, O>(key: Key, ts: seq<Transition<D, I, O>>, h: map<State, Transition<D, I, O>>, s: State)
    requires KeyOk(key, ts) && KeyHolds(key, ts, h)
    ensures var i := Declared(key, ts, s);
            (s in h <==> i.Some?) && (i.Some? ==> h[s] == Filled(key, ts[i.value]))
  {
    var es, i := Entries(key, ts), Declared(key, ts, s);
    if s in h {
      var k :| 0 <= k < |es| && es[k].0 == s;
      assert es[k] in es;
      EntriesInTable(key, ts, s, es[k].1);
      OneFires(key, ts, s, es[k].1, i.value);
    }
    if i.Some? {
      EntriesInTable(key, ts, s, i.value);
      var k :| 0 <= k < |es| && es[k] == (s, i.value);
    }
  }

  /** The compiled automaton and the table give the same outcome for every key, state, data and input. */
  lemma CompiledMeansTable<D, I, O>(table: Table<D, I, O>, c: Compiled<D, I, O>, key: Key, at: State, cur: State,
                                    data: D, input: I)
    requires WellFormed(table) && IsCompiled(table, c)
    ensures Lookup(c, key, at, cur, data, input) == Interpret(table, key, at, cur, data, input)
  {
    if key in table {
      assert KeyHolds(key, table[key], c[key]);
      HeldTransition(key, table[key], c[key], at);
    }
  }

  /** Where a fired transition leads: to `To` if it is given, to a member of `Ok` if `Ok` is given and no error is
      returned, and nowhere else. */
  lemma WhereItLeads<D, I, O>(t: Transition<D, I, O>, cur: State, data: D, input: I)
    requires Flaw(t).None? && Fire(t, cur, data, input).Moved?
    ensures var m := Fire(t, cur, data, input);
            if t.to != NO_STATE then m.state == t.to
            else if t.ok.Some? && !m.failed then m.state in t.ok.value
            else m.state == cur
  {
    CallsEffect(HandlerEffect(t, cur, data, input).ops, Origins(t), Targets(t), cur, false);
  }

  /** Calls on a handle set the state at most once, and then to an allowed target. */
  lemma {:induction false} CallsEffect(ops: seq<HandleOp>, at: seq<State>, ok: seq<State>, state: State, mutated: bool)
    ensures var r := Calls(ops, at, ok, state, mutated);
            r.Handled? ==> if r.mutated == mutated then r.state == state else r.mutated && r.state in ok
  {
    if ops != [] {
      var one := Call(ops[0], at, ok, state, mutated);
      if one.Handled? {
        CallsEffect(ops[1..], at, ok, one.state, one.mutated);
      }
    }
  }

  /** A table entered by the current state, as for writing, or by another key, as for reading. */
  datatype Stimulus<+I> = ByState(input: I) | ByKey(key: Key, input: I)

  datatype Configuration<+D, +O> = Configuration(state: State, data: D, trace: seq<Outcome<D, O>>)

  function After<D, O>(x: Configuration<D, O>, o: Outcome<D, O>): Configuration<D, O> {
    var y := x.(trace := x.trace + [o]);
    if o.Moved? then y.(state := o.state, data := o.data) else y
  }

  function KeyOf<I>(cur: State, e: Stimulus<I>): Key {
    if e.ByState? then StateKey(cur) else e.key
  }

  function RunCompiled<D, I, O>(c: Compiled<D, I, O>, x: Configuration<D, O>, es: seq<Stimulus<I>>): Configuration<D, O>
    decreases |es|
  {
    if es == [] then x
    else RunCompiled(c, After(x, Lookup(c, KeyOf(x.state, es[0]), x.state, x.state, x.data, es[0].input)), es[1..])
  }

  function RunTable<D, I, O>(table: Table<D, I, O>, x: Configuration<D, O>, es: seq<Stimulus<I>>): Configuration<D, O>
    decreases |es|
  {
    if es == [] then x
    else
      var o := Interpret(table, KeyOf(x.state, es[0]), x.state, x.state, x.data, es[0].input);
      RunTable(table, After(x, o), es[1..])
  }

  /** The same over every run: states, data, outputs and errors all agree. */
  lemma {:induction false} RunsAgree<D, I, O>(
      table: Table<D, I, O>, c: Compiled<D, I, O>, x: Configuration<D, O>, es: seq<Stimulus<I>>)
    requires WellFormed(table) && IsCompiled(table, c)
    ensures RunCompiled(c, x, es) == RunTable(table, x, es)
    decreases |es|
  {
    if es != [] {
      CompiledMeansTable(table, c, KeyOf(x.state, es[0]), x.state, x.state, x.data, es[0].input);
      RunsAgree(table, c, After(x, Interpret(table, KeyOf(x.state, es[0]), x.state, x.state, x.data, es[0].input)),
                es[1..]);
    }
  }
}
