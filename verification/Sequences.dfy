/** Sequences: where a stretch stands, distinct elements, the set of the elements, and permutations. */
module Sequences {

  // ---- stretches ----------------------------------------------------------------------------------

  predicate Stands<T(==)>(ts: seq<T>, i: nat, s: seq<T>) {
    i + |s| <= |ts| && ts[i..i + |s|] == s
  }

  lemma StandsSplit<T>(ts: seq<T>, i: nat, a: seq<T>, b: seq<T>)
    requires Stands(ts, i, a + b)
    ensures i + |a| + |b| <= |ts| && Stands(ts, i, a) && Stands(ts, i + |a|, b)
    ensures a != [] ==> ts[i] == a[0]
    ensures b != [] ==> ts[i + |a|] == b[0]
  {
    var s := a + b;
    assert forall k | 0 <= k < |s| :: ts[i..i + |s|][k] == ts[i + k] == s[k];
    assert forall k | 0 <= k < |a| :: ts[i..i + |a|][k] == ts[i + k] == s[k] == a[k];
    assert forall k | 0 <= k < |b| :: ts[i + |a|..i + |a| + |b|][k] == ts[i + |a| + k] == s[|a| + k] == b[k];
  }

  // ---- elements -----------------------------------------------------------------------------------

  predicate Distinct<T(==)>(s: seq<T>) {
    forall i, j | 0 <= i < j < |s| :: s[i] != s[j]
  }

  function SetOf<T(==)>(s: seq<T>): set<T> {
    set x | x in s
  }

  lemma SetOfConcat<T>(a: seq<T>, b: seq<T>)
    ensures SetOf(a + b) == SetOf(a) + SetOf(b)
  {
  }

  // ---- permutations -------------------------------------------------------------------------------

  lemma RemoveAt<T>(b: seq<T>, k: nat)
    requires k < |b|
    ensures multiset(b) == multiset(b[..k] + b[k + 1..]) + multiset{b[k]}
  {
    assert b == b[..k] + ([b[k]] + b[k + 1..]);
  }

  /** The first element of one sequence has its place in the other; what is left is a permutation again. */
  lemma TakeFirst<T>(a: seq<T>, b: seq<T>) returns (k: nat)
    requires a != [] && multiset(a) == multiset(b)
    ensures k < |b| && b[k] == a[0] && multiset(a[1..]) == multiset(b[..k] + b[k + 1..])
  {
    assert a[0] in multiset(b);
    k :| 0 <= k < |b| && b[k] == a[0];
    RemoveAt(b, k);
    RemoveAt(a, 0);
    assert a[..0] + a[1..] == a[1..];
    var x, y := multiset(a[1..]), multiset(b[..k] + b[k + 1..]);
    assert x + multiset{a[0]} == y + multiset{a[0]};
    assert x == (x + multiset{a[0]}) - multiset{a[0]} == (y + multiset{a[0]}) - multiset{a[0]} == y;
  }

  lemma EmptyPermutation<T>(b: seq<T>)
    requires multiset(b) == multiset{}
    ensures b == []
  {
    assert |multiset(b)| == |b|;
  }

  lemma SingletonPermutation<T>(x: T, b: seq<T>)
    requires multiset(b) == multiset{x}
    ensures b == [x]
  {
    assert |multiset(b)| == |b|;
    assert b[0] in multiset(b);
  }

  lemma SameElements<T>(a: seq<T>, b: seq<T>)
    requires multiset(a) == multiset(b)
    ensures forall x | x in a :: x in b
  {
    forall x | x in a
      ensures x in b
    {
      assert x in multiset(a);
    }
  }
}
