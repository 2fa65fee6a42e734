/** Counting occurrences in sequences and set flags in bitmaps. */
module Counting {

  function Occurs<T(==)>(s: seq<T>, x: T): nat {
    if s == [] then 0 else Occurs(s[..|s| - 1], x) + (if s[|s| - 1] == x then 1 else 0)
  }

  lemma {:induction false} OccursConcat<T>(s: seq<T>, t: seq<T>, x: T)
    ensures Occurs(s + t, x) == Occurs(s, x) + Occurs(t, x)
  {
    if t == [] {
      assert s + t == s;
    } else {
      assert (s + t)[..|s + t| - 1] == s + t[..|t| - 1];
      OccursConcat(s, t[..|t| - 1], x);
    }
  }

  lemma {:induction false} OccursIn<T>(s: seq<T>, x: T)
    ensures x in s <==> Occurs(s, x) > 0
  {
    if s != [] {
      OccursIn(s[..|s| - 1], x);
      assert s == s[..|s| - 1] + [s[|s| - 1]];
    }
  }

  lemma OccursHead<T>(s: seq<T>, x: T)
    requires s != []
    ensures Occurs(s, x) == Occurs(s[1..], x) + if s[0] == x then 1 else 0
  {
    OccursConcat(s[..1], s[1..], x);
    assert s == s[..1] + s[1..];
    assert s[..1][..0] == [];
  }

  function CountTrue(s: seq<bool>): nat {
    if s == [] then 0 else CountTrue(s[..|s| - 1]) + (if s[|s| - 1] then 1 else 0)
  }

  lemma {:induction false} CountSet(s: seq<bool>, i: nat)
    requires i < |s| && !s[i]
    ensures CountTrue(s[i := true]) == CountTrue(s) + 1
  {
    var n := |s| - 1;
    if i == n {
      assert s[i := true][..n] == s[..n];
    } else {
      assert s[i := true][..n] == s[..n][i := true];
      CountSet(s[..n], i);
    }
  }

  /** A bitmap counts at most its length, and reaches it exactly when every flag is set. */
  lemma {:induction false} CountFull(s: seq<bool>)
    ensures CountTrue(s) <= |s|
    ensures CountTrue(s) == |s| <==> forall i :: 0 <= i < |s| ==> s[i]
    ensures CountTrue(s) == 0 <==> forall i :: 0 <= i < |s| ==> !s[i]
  {
    if s != [] {
      var n := |s| - 1;
      CountFull(s[..n]);
      assert forall i :: 0 <= i < n ==> s[..n][i] == s[i];
    }
  }
}
