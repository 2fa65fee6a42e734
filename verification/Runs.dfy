/** Runs of a state machine, and induction over them. */
module Runs {

  /** `y` is reached from `start` by the actions in turn. */
  ghost predicate Reaches<S(!new), A(!new)>(start: S, next: (S, A, S) -> bool, acts: seq<A>, y: S) {
    if acts == [] then y == start
    else exists x :: next(start, acts[0], x) && Reaches(x, next, acts[1..], y)
  }

  /** What holds at the start and is kept by every step holds after every run. */
  lemma RunInduction<S(!new), A(!new)>(
      start: S, next: (S, A, S) -> bool, inv: (seq<A>, S) -> bool, acts: seq<A>, y: S)
    requires inv([], start)
    requires forall before, x, a, z :: inv(before, x) && next(x, a, z) ==> inv(before + [a], z)
    requires Reaches(start, next, acts, y)
    ensures inv(acts, y)
  {
    Continue([], start, next, inv, acts, y);
    assert [] + acts == acts;
  }

  lemma {:induction false} Continue<S(!new), A(!new)>(
      before: seq<A>, x: S, next: (S, A, S) -> bool, inv: (seq<A>, S) -> bool, acts: seq<A>, y: S)
    requires inv(before, x)
    requires forall before, x, a, z :: inv(before, x) && next(x, a, z) ==> inv(before + [a], z)
    requires Reaches(x, next, acts, y)
    ensures inv(before + acts, y)
    decreases |acts|
  {
    if acts == [] {
      assert before + acts == before;
    } else {
      var z :| next(x, acts[0], z) && Reaches(z, next, acts[1..], y);
      Continue(before + [acts[0]], z, next, inv, acts[1..], y);
      assert before + [acts[0]] + acts[1..] == before + acts;
    }
  }

  /** A run of a stricter machine is a run of the laxer one. */
  lemma {:induction false} Subrun<S(!new), A(!new)>(
      start: S, next: (S, A, S) -> bool, lax: (S, A, S) -> bool, acts: seq<A>, y: S)
    requires forall x, a, z :: next(x, a, z) ==> lax(x, a, z)
    requires Reaches(start, next, acts, y)
    ensures Reaches(start, lax, acts, y)
    decreases |acts|
  {
    if acts != [] {
      var z :| next(start, acts[0], z) && Reaches(z, next, acts[1..], y);
      Subrun(z, next, lax, acts[1..], y);
    }
  }

  /** A step after a run. */
  lemma {:induction false} Snoc<S(!new), A(!new)>(start: S, next: (S, A, S) -> bool, acts: seq<A>, x: S, a: A, y: S)
    requires Reaches(start, next, acts, x) && next(x, a, y)
    ensures Reaches(start, next, acts + [a], y)
    decreases |acts|
  {
    if acts == [] {
      assert [] + [a] == [a] && [a][1..] == [];
      assert Reaches(y, next, [], y);
    } else {
      var z :| next(start, acts[0], z) && Reaches(z, next, acts[1..], x);
      Snoc(z, next, acts[1..], x, a, y);
      assert (acts + [a])[1..] == acts[1..] + [a];
    }
  }

  /** A run after a run. */
  lemma {:induction false} Append<S(!new), A(!new)>(
      start: S, next: (S, A, S) -> bool, acts: seq<A>, x: S, more: seq<A>, y: S)
    requires Reaches(start, next, acts, x) && Reaches(x, next, more, y)
    ensures Reaches(start, next, acts + more, y)
    decreases |acts|
  {
    if acts == [] {
      assert acts + more == more;
    } else {
      var z :| next(start, acts[0], z) && Reaches(z, next, acts[1..], x);
      Append(z, next, acts[1..], x, more, y);
      assert (acts + more)[1..] == acts[1..] + more;
    }
  }
}
