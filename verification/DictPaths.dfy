/** Differences and merges of nested dicts, path by path. */
module DictPaths {
  import opened Wrappers
  import opened DictDiff

  /** What stands in the dict at the end of a path of keys. */
  function At(v: Value, p: seq<Key>): Option<Value> {
    if p == [] then Some(v)
    else if v.Dict? && p[0] in v.entries then At(v.entries[p[0]], p[1..])
    else None
  }

  predicate BothDicts(a: Option<Value>, b: Option<Value>) {
    a.Some? && b.Some? && a.value.Dict? && b.value.Dict?
  }

  /** What is at the path in the second dict is new, or not equal to what the first one has there. */
  predicate Changed(a: Value, b: Value, p: seq<Key>) {
    At(b, p).Some? && (At(a, p).None? || !Same(At(a, p).value, At(b, p).value))
  }

  lemma AtKey(v: Value, k: Key)
    requires v.Dict? && k in v.entries
    ensures At(v, [k]) == Some(v.entries[k])
  {
    assert [k][1..] == [];
  }

  /** Every key of the difference, on every level, is new or changed. */
  lemma {:induction false} EveryKeyIsChanged(a: Value, b: Value, p: seq<Key>)
    requires a.Dict? && b.Dict? && p != [] && At(Updates(a, b), p).Some?
    ensures Changed(a, b, p)
    decreases b
  {
    hide Same;
    var k := p[0];
    var v := b.entries[k];
    if k in a.entries && a.entries[k].Dict? && v.Dict? {
      var nested := Updates(a.entries[k], v);
      if |p| > 1 {
        EveryKeyIsChanged(a.entries[k], v, p[1..]);
      } else {
        var key :| key in nested.entries;
        AtKey(nested, key);
        EveryKeyIsChanged(a.entries[k], v, [key]);
        OneChange(a.entries[k], v, key);
        assert p == [k];
        AtKey(a, k);
        AtKey(b, k);
      }
    } else if |p| == 1 {
      assert p == [k];
      AtKey(b, k);
      if k in a.entries {
        AtKey(a, k);
      }
    } else {
      NotInside(a, b, p);
    }
  }

  /** Where the dicts have no common dict on the way, what is inside is new. */
  lemma NotInside(a: Value, b: Value, p: seq<Key>)
    requires a.Dict? && b.Dict? && |p| > 1 && p[0] in b.entries && At(b.entries[p[0]], p[1..]).Some?
    requires !(p[0] in a.entries && a.entries[p[0]].Dict?) || !b.entries[p[0]].Dict?
    ensures Changed(a, b, p)
  {
  }

  lemma OneChange(a: Value, b: Value, k: Key)
    requires a.Dict? && b.Dict? && Changed(a, b, [k])
    ensures !Same(a, b)
  {
    AtKey(b, k);
    if k in a.entries {
      AtKey(a, k);
    }
  }

  /** What is new or changed, and not a dict in both, is in the difference as it is in the second dict. */
  lemma {:induction false} ChangedIsThere(a: Value, b: Value, p: seq<Key>)
    requires a.Dict? && b.Dict? && p != [] && Changed(a, b, p) && !BothDicts(At(a, p), At(b, p))
    ensures At(Updates(a, b), p) == At(b, p)
    decreases b
  {
    var k := p[0];
    var v := b.entries[k];
    if k in a.entries && a.entries[k].Dict? && v.Dict? {
      ChangedIsThere(a.entries[k], v, p[1..]);
    } else if |p| == 1 {
      assert p[1..] == [];
    }
  }

  /** Of values that are not both dicts the answer is nothing when they are equal, and else what dicts with
      these values under a key differ in. */
  lemma AnswerIsUnderKey(a: Value, b: Value, k: Key)
    requires !a.Dict? || !b.Dict?
    ensures Same(a, b) ==> UpdatedProperties(a, b) == Null
    ensures !Same(a, b) ==>
      Updates(Dict(map[k := a]), Dict(map[k := b])) == Dict(map[k := UpdatedProperties(a, b)])
    ensures !Same(a, b) ==> At(Updates(Dict(map[k := a]), Dict(map[k := b])), [k]) == Some(b)
  {
    hide Same;
    var x, y := Dict(map[k := a]), Dict(map[k := b]);
    if !Same(a, b) {
      assert Update(x, k, b) == Some(b);
      assert Updates(x, y).entries == map[k := b];
      AtKey(Updates(x, y), k);
    }
  }

  /** The merged dict has what the second one has, unless both have a dict there. */
  lemma {:induction false} SecondIsTaken(a: Value, b: Value, p: seq<Key>)
    requires a.Dict? && b.Dict? && p != [] && At(b, p).Some? && !BothDicts(At(a, p), At(b, p))
    ensures At(Merge(a, b), p) == At(b, p)
    decreases b
  {
    var k := p[0];
    var v := b.entries[k];
    if k in a.entries && a.entries[k].Dict? && v.Dict? {
      SecondIsTaken(a.entries[k], v, p[1..]);
    }
  }

  /** Where the second dict has nothing, and nothing in the way, the merged dict has what the first one has. */
  lemma {:induction false} FirstIsKept(a: Value, b: Value, p: seq<Key>)
    requires a.Dict? && b.Dict? && At(b, p).None? && At(a, p).Some?
    requires forall i | 0 < i < |p| :: At(b, p[..i]).Some? ==> At(b, p[..i]).value.Dict?
    ensures At(Merge(a, b), p) == At(a, p)
    decreases b
  {
    var k := p[0];
    if k in b.entries {
      AtKey(b, k);
      assert p[..1] == [k];
      forall i | 0 < i < |p| - 1
        ensures At(b.entries[k], p[1..][..i]) == At(b, p[..i + 1])
      {
        assert p[..i + 1][1..] == p[1..][..i];
      }
      FirstIsKept(a.entries[k], b.entries[k], p[1..]);
    }
  }

  /** Python's equality of booleans and numbers. */
  lemma NumbersAreEqual(b: bool, i: int, j: int)
    ensures Same(Bool(b), Int(i)) <==> i == (if b then 1 else 0)
    ensures Same(Int(i), Bool(b)) <==> i == (if b then 1 else 0)
    ensures Same(Int(i), Int(j)) <==> i == j
    ensures !Same(Int(i), Null) && !Same(Bool(b), Str("")) && !Same(Null, Bool(b))
  {
  }
}
